// Facts about sequences that several proofs need.
module Sequences {
  lemma NoMore<T>(s: seq<T>)
    ensures s + [] == s
  {
  }

  lemma Twice<T>(s: seq<T>, a: nat, b: nat)
    requires a + b <= |s|
    ensures s[a..][b..] == s[a + b..]
  {
  }

  lemma SplitFirst<T>(a: seq<T>, b: seq<T>, n: nat)
    requires n <= |a|
    ensures (a + b)[n..] == a[n..] + b && (a + b)[..n] == a[..n]
  {
  }

  lemma SliceAppend<T>(s: seq<T>, more: seq<T>, n: nat)
    requires n <= |s|
    ensures (s + more)[n..] == s[n..] + more
  {
  }

  lemma HeadAndTail<T>(s: seq<T>)
    requires s != []
    ensures s == [s[0]] + s[1..]
  {
  }

  lemma Associate<T>(a: seq<T>, b: seq<T>, c: seq<T>)
    ensures a + (b + c) == a + b + c
  {
  }

  lemma SplitHead<T>(q: seq<T>, more: seq<T>)
    requires q != []
    ensures q + more == [q[0]] + (q[1..] + more)
  {
  }

  lemma SliceHas<T>(xs: seq<T>, a: nat, b: nat, x: T)
    requires a <= b <= |xs|
    ensures x in xs[a..b] <==> exists i :: a <= i < b && xs[i] == x
  {
    assert forall i | a <= i < b :: xs[i] == xs[a..b][i - a];
  }
}
