// The two representations of a configuration: the values, section by section, and the lines in
// the order in which they are to be written. Erasing a value leaves its line behind.
module ConfStore {

  datatype Line = Comment(text: string) | Key(key: string) | Var(nm: string)

  type Submaps = map<string, map<string, string>>

  datatype Conf = Conf(submaps: Submaps, order: seq<Line>)

  const EMPTY := Conf(map[], [])

  predicate Live(m: Submaps, sk: string, nm: string) { sk in m && nm in m[sk] }

  ghost predicate NoEmpty(m: Submaps) { forall sk | sk in m :: m[sk] != map[] }

  // --- values ---

  function PutValue(m: Submaps, sk: string, nm: string, value: string): Submaps {
    m[sk := (if sk in m then m[sk] else map[])[nm := value]]
  }

  function DropValue(m: Submaps, sk: string, nm: string): Submaps
    requires sk in m
  {
    var sub := m[sk] - {nm};
    if sub == map[] then m - {sk} else m[sk := sub]
  }

  // --- order ---

  function FindKey(order: seq<Line>, sk: string): (i: nat)
    ensures i <= |order|
    ensures i < |order| <==> Key(sk) in order
    ensures i < |order| ==> order[i] == Key(sk)
    ensures Key(sk) !in order[..i]
  {
    if order == [] || order[0] == Key(sk) then 0 else 1 + FindKey(order[1..], sk)
  }

  // The first section line at or after start.
  function NextKey(order: seq<Line>, start: nat): (i: nat)
    requires start <= |order|
    ensures start <= i <= |order|
    ensures forall k | start <= k < i :: !order[k].Key?
    ensures i < |order| ==> order[i].Key?
    decreases |order| - start
  {
    if start == |order| || order[start].Key? then start else NextKey(order, start + 1)
  }

  // Where the lines of section sk start. The global section has no line of its own.
  function ZoneStart(order: seq<Line>, sk: string): (i: nat)
    requires sk == "" || Key(sk) in order
    ensures i <= |order|
  {
    if sk == "" then 0 else FindKey(order, sk) + 1
  }

  // A new line for nm goes at the end of its section, unless a stale one is still there.
  function InsertVar(order: seq<Line>, nm: string, sk: string): seq<Line>
    requires sk == "" || Key(sk) in order
  {
    var start := ZoneStart(order, sk);
    var fin := NextKey(order, start);
    if Var(nm) in order[start..fin] then order else order[..fin] + [Var(nm)] + order[fin..]
  }

  // --- i_set, erase, eraseKey ---

  // A value with a line end would not fit the line that it is written on.
  predicate Settable(value: string) { '\n' !in value && '\r' !in value }

  function WithKey(c: Conf, sk: string): seq<Line> {
    if sk !in c.submaps && sk != "" && Key(sk) !in c.order then c.order + [Key(sk)] else c.order
  }

  // Every section that has values has a line. This is what keeps i_set from aborting.
  ghost predicate Keyed(c: Conf) {
    forall sk | sk in c.submaps && sk != "" :: Key(sk) in c.order
  }

  function Set(c: Conf, nm: string, value: string, sk: string, init: bool): Conf
    requires Keyed(c)
  {
    if !Settable(value) then c
    else
      var m := PutValue(c.submaps, sk, nm, value);
      if Live(c.submaps, sk, nm) then Conf(m, c.order)
      else if init then Conf(m, WithKey(c, sk) + [Var(nm)])
      else Conf(m, InsertVar(WithKey(c, sk), nm, sk))
  }

  function Erase(c: Conf, nm: string, sk: string): Conf {
    if sk in c.submaps then c.(submaps := DropValue(c.submaps, sk, nm)) else c
  }

  function EraseKey(c: Conf, sk: string): Conf {
    c.(submaps := c.submaps - {sk})
  }

  // --- which section an order line belongs to ---

  ghost function SectionAfter(order: seq<Line>, s0: string): string
    decreases |order|
  {
    if order == [] then s0
    else
      var n := |order| - 1;
      if order[n].Key? then order[n].key else SectionAfter(order[..n], s0)
  }

  // The variable lines with their sections, in order.
  ghost function Pairs(order: seq<Line>, s0: string): seq<(string, string)>
    decreases |order|
  {
    if order == [] then []
    else
      var n := |order| - 1;
      Pairs(order[..n], s0)
      + (if order[n].Var? then [(SectionAfter(order[..n], s0), order[n].nm)] else [])
  }

  lemma {:induction false} PairsConcat(a: seq<Line>, b: seq<Line>, s0: string)
    ensures SectionAfter(a + b, s0) == SectionAfter(b, SectionAfter(a, s0))
    ensures Pairs(a + b, s0) == Pairs(a, s0) + Pairs(b, SectionAfter(a, s0))
    decreases |b|
  {
    if b == [] {
      assert a + b == a;
    } else {
      var n := |b| - 1;
      PairsConcat(a, b[..n], s0);
      assert (a + b)[..|a| + n] == a + b[..n];
    }
  }

  // A pair is there exactly when some variable line of that section is.
  lemma {:induction false} PairsAt(order: seq<Line>, s0: string, sk: string, nm: string)
    ensures (sk, nm) in Pairs(order, s0) <==>
            exists i :: 0 <= i < |order| && order[i] == Var(nm) && SectionAfter(order[..i], s0) == sk
    decreases |order|
  {
    if order != [] {
      var n := |order| - 1;
      PairsAt(order[..n], s0, sk, nm);
      forall i | 0 <= i < n ensures order[..n][..i] == order[..i] && order[..n][i] == order[i] {}
    }
  }

  ghost predicate Distinct<T>(xs: seq<T>) {
    forall i, j | 0 <= i < j < |xs| :: xs[i] != xs[j]
  }

  ghost predicate KeysOnce(order: seq<Line>) {
    && Key("") !in order
    && (forall i, j | 0 <= i < j < |order| && order[i].Key? :: order[i] != order[j])
  }

  // --- agreement ---

  // Every value has exactly one line in its own section, every section has exactly one
  // line, and no section is empty. Lines of erased values may remain, once each.
  ghost predicate Agree(c: Conf) {
    && NoEmpty(c.submaps)
    && Keyed(c)
    && KeysOnce(c.order)
    && Distinct(Pairs(c.order, ""))
    && Covered(c)
  }

  ghost predicate Covered(c: Conf) {
    forall sk, nm | Live(c.submaps, sk, nm) :: (sk, nm) in Pairs(c.order, "")
  }

  // --- what set does to the order ---

  // All along its zone, the section is sk.
  lemma {:induction false} ZoneSection(order: seq<Line>, sk: string, i: nat)
    requires KeysOnce(order) && (sk == "" || Key(sk) in order)
    requires ZoneStart(order, sk) <= i <= NextKey(order, ZoneStart(order, sk))
    ensures SectionAfter(order[..i], "") == sk
    decreases i
  {
    if i > ZoneStart(order, sk) {
      ZoneSection(order, sk, i - 1);
      assert order[..i][..i - 1] == order[..i - 1];
    } else if i > 0 {
      assert order[..i][i - 1] == Key(sk);
    }
  }

  // The section after a prefix comes from its last section line.
  lemma {:induction false} SectionFrom(order: seq<Line>, n: nat) returns (k: nat)
    requires n <= |order|
    ensures k <= n && forall j | k <= j < n :: !order[j].Key?
    ensures if k == 0 then SectionAfter(order[..n], "") == ""
            else order[k - 1].Key? && SectionAfter(order[..n], "") == order[k - 1].key
  {
    if n == 0 {
      k := 0;
    } else if order[n - 1].Key? {
      k := n;
    } else {
      k := SectionFrom(order, n - 1);
      assert order[..n][..n - 1] == order[..n - 1];
    }
  }

  // No line outside the zone of sk is in section sk.
  lemma OnlyZone(order: seq<Line>, sk: string, i: nat)
    requires KeysOnce(order) && (sk == "" || Key(sk) in order)
    requires i < |order| && order[i].Var? && SectionAfter(order[..i], "") == sk
    ensures ZoneStart(order, sk) <= i < NextKey(order, ZoneStart(order, sk))
  {
    var k := SectionFrom(order, i);
    if k > 0 {
      assert order[k - 1] in order;
      assert sk != "";
    }
    assert k == ZoneStart(order, sk);
  }

  lemma OutsideZone(order: seq<Line>, sk: string, i: nat)
    requires KeysOnce(order) && (sk == "" || Key(sk) in order)
    requires i < |order| && order[i].Var? && !(ZoneStart(order, sk) <= i < NextKey(order, ZoneStart(order, sk)))
    ensures SectionAfter(order[..i], "") != sk
  {
    if SectionAfter(order[..i], "") == sk {
      OnlyZone(order, sk, i);
    }
  }
}
