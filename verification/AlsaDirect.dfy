// The resampling ratio that keeps the output queue at its target size: computed from the queue
// size, limited, and smoothed. Reals stand for floating point numbers.
module AlsaDirect {
  import opened WorkQueueSpec
  import Runs = WorkQueueRuns

  // The target size of the output queue, half of the most that it holds.
  const QS_TARGET := 50

  // The queue of 100 has one writer, which waits for the target size before it starts playing and then
  // takes. The receiver and the writer are never both left asleep.
  lemma OutputNeverHangs<T>(x: T, steps: seq<Step<T>>)
    requires Run(Policy(false, false, 50, false, false), Init<T>(100, 1), steps)
    ensures !Runs.Stalled(Exec(Policy(false, false, 50, false, false), Init<T>(100, 1), steps))
  {
    var writer := Policy(false, false, 50, false, false);
    Runs.StallIff<T>(writer, 100, 1, x);
    assert !Runs.Hangs(writer, 100, 1, steps);
  }

  // --- the filter ---

  const FNS := 128

  // Input number k counted backwards from the last one; before the first they were all 1.
  function Recent(history: seq<real>, k: nat): real {
    if k < |history| then history[|history| - 1 - k] else 1.0
  }

  // The sum of the last n inputs.
  function Window(history: seq<real>, n: nat): real {
    if n == 0 then 0.0 else Window(history, n - 1) + Recent(history, n - 1)
  }

  function Smoothed(history: seq<real>): real {
    (1.0 + Window(history, FNS - 1)) / 128.0
  }

  lemma {:induction false} WindowSlides(history: seq<real>, x: real, n: nat)
    ensures Window(history + [x], n + 1) == x + Window(history, n)
  {
    var longer := history + [x];
    assert Recent(longer, n) == if n == 0 then x else Recent(history, n - 1);
    if n > 0 {
      WindowSlides(history, x, n - 1);
    }
  }

  // The buffer holds the last inputs, the newest just before position idx.
  ghost predicate Ring(buf: seq<real>, idx: nat, history: seq<real>)
    requires |buf| == FNS && idx < FNS
  {
    forall k | 0 <= k < FNS :: buf[(idx + FNS - 1 - k) % FNS] == Recent(history, k)
  }

  lemma RingTurns(buf: seq<real>, i: nat, history: seq<real>, x: real, j: nat)
    requires |buf| == FNS && i < FNS && Ring(buf, i, history) && j == (if i + 1 == FNS then 0 else i + 1)
    ensures Ring(buf[i := x], j, history + [x])
    ensures buf[i := x][j] == Recent(history + [x], FNS - 1)
  {
    var buf1, longer := buf[i := x], history + [x];
    forall k | 0 <= k < FNS ensures buf1[(j + FNS - 1 - k) % FNS] == Recent(longer, k) {
      if k > 0 {
        assert (j + FNS - 1 - k) % FNS == (i + FNS - 1 - (k - 1)) % FNS != i;
        assert Recent(longer, k) == Recent(history, k - 1);
      }
    }
    assert (j + FNS - 1 - (FNS - 1)) % FNS == j;
  }

  class Filter {
    const buf: array<real>
    var sum: real
    var idx: nat
    ghost var history: seq<real>

    ghost predicate Valid()
      reads this, buf
    {
      && buf.Length == FNS && idx < FNS
      && Ring(buf[..], idx, history)
      && sum == 1.0 + Window(history, FNS - 1)
    }

    constructor ()
      ensures Valid() && fresh(buf) && history == []
    {
      buf := new real[FNS];
      sum, idx, history := 0.0, 0, [];
      new;
      var i := 0;
      while i < FNS
        modifies this`sum, buf
        invariant 0 <= i <= FNS && sum == i as real
        invariant forall j | 0 <= j < i :: buf[j] == 1.0
      {
        buf[i] := 1.0;
        sum := sum + buf[i];
        i := i + 1;
      }
      WindowOfOnes(FNS - 1);
    }

    // operator().
    method Next(ns: real) returns (r: real)
      requires Valid()
      modifies this, buf
      ensures Valid() && history == old(history) + [ns]
      ensures r == Smoothed(history)
    {
      buf[idx] := ns;
      idx := idx + 1;
      sum := sum + ns;
      if idx == FNS {
        idx := 0;
      }
      sum := sum - buf[idx];
      RingTurns(old(buf[..]), old(idx), history, ns, idx);
      WindowSlides(history, ns, FNS - 2);
      history := history + [ns];
      assert Ring(buf[..], idx, history);
      r := sum / 128.0;
    }
  }

  lemma {:induction false} WindowOfOnes(n: nat)
    ensures Window([], n) == n as real
  {
    if n > 0 { WindowOfOnes(n - 1); }
  }

  // --- what the filter does to its inputs ---

  ghost predicate Between(history: seq<real>, lo: real, hi: real) {
    forall i | 0 <= i < |history| :: lo <= history[i] <= hi
  }

  lemma {:induction false} WindowBetween(history: seq<real>, lo: real, hi: real, n: nat)
    requires Between(history, lo, hi) && lo <= 1.0 <= hi
    ensures n as real * lo <= Window(history, n) <= n as real * hi
  {
    if n > 0 {
      WindowBetween(history, lo, hi, n - 1);
      assert lo <= Recent(history, n - 1) <= hi;
    }
  }

  // The output stays in any range around 1 that the inputs stay in.
  lemma SmoothedBetween(history: seq<real>, lo: real, hi: real)
    requires Between(history, lo, hi) && lo <= 1.0 <= hi
    ensures lo <= Smoothed(history) <= hi
  {
    WindowBetween(history, lo, hi, FNS - 1);
  }

  // One input moves it by no more than a 128th of that range.
  lemma SmoothedSlow(history: seq<real>, x: real, lo: real, hi: real)
    requires Between(history, lo, hi) && lo <= x <= hi && lo <= 1.0 <= hi
    ensures -(hi - lo) / 128.0 <= Smoothed(history + [x]) - Smoothed(history) <= (hi - lo) / 128.0
  {
    WindowSlides(history, x, FNS - 2);
    assert lo <= Recent(history, FNS - 2) <= hi;
  }

  // Older inputs do not matter.
  lemma {:induction false} WindowForgets(older: seq<real>, recent: seq<real>, n: nat)
    requires n <= |recent|
    ensures Window(older + recent, n) == Window(recent, n)
  {
    if n > 0 {
      WindowForgets(older, recent, n - 1);
      assert Recent(older + recent, n - 1) == Recent(recent, n - 1);
    }
  }

  // Fed with c for long enough, the filter comes to rest at c exactly when c is 1: the 1 that the
  // constructor counts too many is never taken out of the sum.
  lemma SettlesIff(older: seq<real>, recent: seq<real>, c: real)
    requires |recent| >= FNS - 1 && Between(recent, c, c)
    ensures Smoothed(older + recent) == c + (1.0 - c) / 128.0
    ensures Smoothed(older + recent) == c <==> c == 1.0
  {
    WindowForgets(older, recent, FNS - 1);
    WindowConstant(recent, c, FNS - 1);
  }

  lemma {:induction false} WindowConstant(recent: seq<real>, c: real, n: nat)
    requires n <= |recent| && Between(recent, c, c)
    ensures Window(recent, n) == n as real * c
  {
    if n > 0 { WindowConstant(recent, c, n - 1); }
  }

  ghost predicate AllOnes(history: seq<real>) { forall i | 0 <= i < |history| :: history[i] == 1.0 }

  // Fed with nothing but 1 from the start, the filter stays there.
  lemma StaysOne(history: seq<real>)
    requires AllOnes(history)
    ensures Smoothed(history) == 1.0
  {
    SmoothedBetween(history, 1.0, 1.0);
  }

  // --- the ratio ---

  // The command before smoothing: qs frames are queued, and target is wanted.
  function Command(qinit: bool, qs: real, target: real): (ratio: real)
    requires target > 0.0
    ensures 0.9 <= ratio <= 1.1
  {
    if !qinit then 1.0 else Limited(1.0 + 0.1 * ((target - qs) / target))
  }

  function Limited(ratio: real): real {
    if ratio < 0.9 then 0.9 else if ratio > 1.1 then 1.1 else ratio
  }

  // It pushes the queue toward its target, and is limited exactly beyond an empty queue and one of
  // twice the target.
  lemma CommandCorrects(qs: real, target: real)
    requires target > 0.0
    ensures Command(true, qs, target) > 1.0 <==> qs < target
    ensures Command(true, qs, target) < 1.0 <==> qs > target
    ensures Command(true, qs, target) == 1.1 <==> qs <= 0.0
    ensures Command(true, qs, target) == 0.9 <==> qs >= 2.0 * target
  {
    var x := Parts(qs, target);
    LimitedAt(x);
  }

  // In between it is linear: a tenth of how far the queue is from its target, relative to that. Before
  // the queue was full for the first time the command is exactly 1.
  lemma CommandIs(qs: real, target: real)
    requires target > 0.0
    ensures 0.0 <= qs <= 2.0 * target ==> 10.0 * target * (Command(true, qs, target) - 1.0) == target - qs
    ensures Command(false, qs, target) == 1.0
  {
    if 0.0 <= qs <= 2.0 * target {
      var x := Parts(qs, target);
      Scale(0.0, 0.0, x, qs, target);
      Scale(x, qs, 2.0, 2.0 * target, target);
      assert Command(true, qs, target) == 1.0 + 0.1 * (1.0 - x);
      assert 10.0 * target * (0.1 * (1.0 - x)) == target * (1.0 - x);
    }
  }

  // It pushes more the further the queue is from the target.
  lemma CommandFalls(qs: real, target: real, more: real)
    requires target > 0.0 && qs <= more
    ensures Command(true, more, target) <= Command(true, qs, target)
  {
    var x := Parts(qs, target);
    var y := Parts(more, target);
    Scale(y, more, x, qs, target);
  }

  // The queue size as a part of the target.
  lemma Parts(qs: real, target: real) returns (x: real)
    requires target > 0.0
    ensures x * target == qs && Command(true, qs, target) == Limited(1.0 + 0.1 * (1.0 - x))
    ensures (x <= 0.0 <==> qs <= 0.0) && (x < 1.0 <==> qs < target) && (x > 1.0 <==> qs > target)
    ensures x >= 2.0 <==> qs >= 2.0 * target
  {
    x := qs / target;
    Relative(qs, target, x);
    Scale(0.0, 0.0, x, qs, target);
    Scale(x, qs, 1.0, target, target);
    Scale(1.0, target, x, qs, target);
    Scale(x, qs, 2.0, 2.0 * target, target);
  }

  lemma LimitedAt(x: real)
    ensures var r := Limited(1.0 + 0.1 * (1.0 - x));
            (r > 1.0 <==> x < 1.0) && (r < 1.0 <==> x > 1.0) && (r == 1.1 <==> x <= 0.0) && (r == 0.9 <==> x >= 2.0)
  {
  }

  lemma Relative(qs: real, target: real, x: real)
    requires target > 0.0 && x * target == qs
    ensures (target - qs) / target == 1.0 - x
  {
    assert target - qs == (1.0 - x) * target;
    Divided(1.0 - x, target - qs, target);
  }

  lemma Divided(x: real, p: real, d: real)
    requires d > 0.0 && p == x * d
    ensures p / d == x
  {
    var y := p / d;
    assert y * d == p;
    Scale(x, p, y, p, d);
    Scale(y, p, x, p, d);
  }

  lemma Scale(x: real, p: real, y: real, q: real, d: real)
    requires d > 0.0 && p == x * d && q == y * d
    ensures x < y <==> p < q
  {
    if x < y {
      assert (y - x) * d > 0.0;
    } else {
      assert (x - y) * d >= 0.0;
    }
  }

  // The part of the loop of audioEater that computes the ratio for the resampler.
  class RateControl {
    const filter: Filter
    const bufframes: nat

    ghost predicate Valid()
      reads this, filter, filter.buf
    {
      filter.Valid() && bufframes > 0 && Between(filter.history, 0.9, 1.1)
    }

    constructor (bufframes: nat)
      requires bufframes > 0
      ensures Valid() && fresh(filter) && fresh(filter.buf) && this.bufframes == bufframes && filter.history == []
    {
      filter := new Filter();
      this.bufframes := bufframes;
    }

    // qsize is the size of the output queue, delay what the driver holds.
    method Ratio(qinit: bool, qsize: nat, delay: int) returns (ratio: real)
      requires Valid()
      modifies filter, filter.buf
      ensures Valid()
      ensures var qs, target := (qsize * bufframes + delay) as real, (50 * bufframes) as real;
              target > 0.0 && filter.history == old(filter.history) + [Command(qinit, qs, target)]
      ensures ratio == Smoothed(filter.history) && 0.9 <= ratio <= 1.1
      // The rate is not touched before qinit
      ensures !qinit && AllOnes(old(filter.history)) ==> AllOnes(filter.history) && ratio == 1.0
    {
      ratio := 1.0;
      if qinit {
        var qs := (qsize * bufframes + delay) as real;
        var qstargframes := (QS_TARGET * bufframes) as real;
        var et := (qstargframes - qs) / qstargframes;
        var ce := 0.1;
        var adj := ce * et;
        ratio := 1.0 + adj;
        if ratio < 0.9 {
          ratio := 0.9;
        }
        if ratio > 1.1 {
          ratio := 1.1;
        }
      }
      ratio := filter.Next(ratio);
      SmoothedBetween(filter.history, 0.9, 1.1);
      if AllOnes(filter.history) { StaysOne(filter.history); }
    }
  }
}
