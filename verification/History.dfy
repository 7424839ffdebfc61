// Histories of a queue: what entered it, and what became of every item that left.
module History {

  datatype Fate = Delivered | Dropped

  // The items among the first |fates| of xs that met fate f, in order.
  ghost function Keep<T, F>(xs: seq<T>, fates: seq<F>, f: F): seq<T>
    requires |fates| <= |xs|
    decreases |fates|
  {
    if fates == [] then []
    else
      var n := |fates| - 1;
      Keep(xs, fates[..n], f) + (if fates[n] == f then [xs[n]] else [])
  }

  // Later arrivals do not change what happened to earlier ones.
  lemma {:induction false} KeepPrefix<T, F>(xs: seq<T>, ys: seq<T>, fates: seq<F>, f: F)
    requires |fates| <= |xs|
    ensures Keep(xs + ys, fates, f) == Keep(xs, fates, f)
    decreases |fates|
  {
    if fates != [] {
      KeepPrefix(xs, ys, fates[..|fates| - 1], f);
    }
  }

  // n more items meet fate g at once.
  lemma {:induction false} KeepExtend<T, F>(xs: seq<T>, fates: seq<F>, n: nat, g: F, f: F)
    requires |fates| + n <= |xs|
    ensures Keep(xs, fates + seq(n, _ => g), f)
         == Keep(xs, fates, f) + (if f == g then xs[|fates|..|fates| + n] else [])
    decreases n
  {
    var more := seq(n, _ => g);
    if n == 0 {
      assert fates + more == fates;
    } else {
      KeepExtend(xs, fates, n - 1, g, f);
      assert (fates + more)[..|fates| + n - 1] == fates + seq(n - 1, _ => g);
    }
  }

  // A history with one fate only keeps a prefix of what arrived.
  lemma {:induction false} KeepAll<T, F>(xs: seq<T>, fates: seq<F>, f: F)
    requires |fates| <= |xs|
    requires forall i | 0 <= i < |fates| :: fates[i] == f
    ensures Keep(xs, fates, f) == xs[..|fates|]
    decreases |fates|
  {
    if fates != [] {
      var n := |fates| - 1;
      KeepAll(xs, fates[..n], f);
    }
  }

  lemma OneMore<T>(a: multiset<T>, b: multiset<T>, x: multiset<T>)
    ensures (a + x) + b == (a + b) + x
    ensures a + (b + x) == (a + b) + x
  {
  }

  lemma KeepSnoc<T, F>(xs: seq<T>, fates: seq<F>, x: T, g: F, f: F)
    requires |fates| == |xs|
    ensures Keep(xs + [x], fates + [g], f) == Keep(xs, fates, f) + (if f == g then [x] else [])
  {
    assert (fates + [g])[..|fates|] == fates;
    KeepPrefix(xs, [x], fates, f);
  }

  // What happened in two stretches, one after the other.
  lemma {:induction false} KeepConcat<T, F>(xs: seq<T>, before: seq<F>, more: seq<F>, f: F)
    requires |before| + |more| <= |xs|
    ensures Keep(xs, before + more, f) == Keep(xs, before, f) + Keep(xs[|before|..], more, f)
    decreases |more|
  {
    if more == [] {
      assert before + more == before;
    } else {
      var n := |more| - 1;
      KeepConcat(xs, before, more[..n], f);
      assert (before + more)[..|before| + n] == before + more[..n];
    }
  }

  // Delivered and dropped items together account for everything that left.
  lemma {:induction false} KeepPartition<T>(xs: seq<T>, fates: seq<Fate>)
    requires |fates| == |xs|
    ensures multiset(Keep(xs, fates, Delivered)) + multiset(Keep(xs, fates, Dropped)) == multiset(xs)
    decreases |fates|
  {
    if fates != [] {
      var n := |fates| - 1;
      var ys, gs, x, g := xs[..n], fates[..n], xs[n], fates[n];
      assert xs == ys + [x] && fates == gs + [g];
      KeepPartition(ys, gs);
      KeepSnoc(ys, gs, x, g, Delivered);
      KeepSnoc(ys, gs, x, g, Dropped);
      var kept, lost := Keep(ys, gs, Delivered), Keep(ys, gs, Dropped);
      OneMore(multiset(kept), multiset(lost), multiset{x});
      if g == Delivered {
        assert multiset(kept + [x]) == multiset(kept) + multiset{x};
        assert lost + [] == lost;
      } else {
        assert multiset(lost + [x]) == multiset(lost) + multiset{x};
        assert kept + [] == kept;
      }
      assert multiset(ys + [x]) == multiset(ys) + multiset{x};
    }
  }
}
