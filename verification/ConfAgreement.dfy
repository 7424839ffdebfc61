// The two representations of a configuration agree through every run of set, erase and eraseKey.
module ConfAgreement {
  import opened Sequences
  import opened ConfStore

  lemma InsertKeeps(order: seq<Line>, nm: string, sk: string, l: Line)
    requires (sk == "" || Key(sk) in order) && l in order
    ensures l in InsertVar(order, nm, sk)
  {
    var fin := NextKey(order, ZoneStart(order, sk));
    assert order == order[..fin] + order[fin..];
  }

  // set never leaves a section without its line, whatever else is wrong with the order: the
  // abort in i_set is never reached.
  lemma SetKeepsKeyed(c: Conf, nm: string, value: string, sk: string, init: bool)
    requires Keyed(c)
    ensures Keyed(Set(c, nm, value, sk, init))
  {
    if Settable(value) && !Live(c.submaps, sk, nm) {
      var o := WithKey(c, sk);
      var c1 := Set(c, nm, value, sk, init);
      forall k | k in c1.submaps && k != "" ensures Key(k) in c1.order {
        assert Key(k) in o;
        if !init { InsertKeeps(o, nm, sk, Key(k)); }
      }
    }
  }

  lemma SetNoEmpty(c: Conf, nm: string, value: string, sk: string, init: bool)
    requires Keyed(c) && NoEmpty(c.submaps)
    ensures NoEmpty(Set(c, nm, value, sk, init).submaps)
  {
    assert nm in PutValue(c.submaps, sk, nm, value)[sk];
  }

  lemma SetLive(c: Conf, nm: string, value: string, sk: string, init: bool)
    requires Keyed(c) && Settable(value)
    ensures var m := Set(c, nm, value, sk, init).submaps;
            && Live(m, sk, nm) && m[sk][nm] == value
            && forall k, n | (k, n) != (sk, nm) ::
                 Live(m, k, n) == Live(c.submaps, k, n) && (Live(m, k, n) ==> m[k][n] == c.submaps[k][n])
  {
  }

  lemma DropLive(m: Submaps, sk: string, nm: string)
    requires sk in m && NoEmpty(m)
    ensures var m1 := DropValue(m, sk, nm);
            && NoEmpty(m1)
            && !Live(m1, sk, nm)
            && m1.Keys <= m.Keys
            && forall k, n | (k, n) != (sk, nm) ::
                 Live(m1, k, n) == Live(m, k, n) && (Live(m1, k, n) ==> m1[k][n] == m[k][n])
  {
    var sub := m[sk] - {nm};
    assert forall n | n in m[sk] && n != nm :: n in sub;
  }

  lemma AppendKey(order: seq<Line>, sk: string)
    requires KeysOnce(order) && sk != "" && Key(sk) !in order
    ensures KeysOnce(order + [Key(sk)]) && Pairs(order + [Key(sk)], "") == Pairs(order, "")
    ensures SectionAfter(order + [Key(sk)], "") == sk
  {
    var o := order + [Key(sk)];
    assert o[..|order|] == order;
    forall i, j | 0 <= i < j < |o| && o[i].Key? ensures o[i] != o[j] {
      assert o[i] in order;
    }
  }

  lemma WithKeyKeeps(c: Conf, sk: string)
    requires KeysOnce(c.order) && Keyed(c)
    ensures var o := WithKey(c, sk);
            KeysOnce(o) && Pairs(o, "") == Pairs(c.order, "") && (sk == "" || Key(sk) in o)
  {
    if sk !in c.submaps && sk != "" && Key(sk) !in c.order {
      AppendKey(c.order, sk);
    }
  }

  lemma DistinctInsert<T>(a: seq<T>, b: seq<T>, x: T)
    requires Distinct(a + b) && x !in a + b
    ensures Distinct(a + [x] + b)
  {
    var xs, ys := a + b, a + [x] + b;
    forall i, j | 0 <= i < j < |ys| ensures ys[i] != ys[j] {
      var i1 := if i < |a| then i else i - 1;
      var j1 := if j < |a| then j else j - 1;
      assert i != |a| ==> ys[i] == xs[i1] && ys[i] in xs;
      assert j != |a| ==> ys[j] == xs[j1] && ys[j] in xs;
    }
  }

  // One more variable line at the end of the zone of sk.
  lemma InsertPairs(order: seq<Line>, nm: string, sk: string)
    requires KeysOnce(order) && (sk == "" || Key(sk) in order)
    requires Distinct(Pairs(order, ""))
    ensures var o := InsertVar(order, nm, sk);
            && KeysOnce(o)
            && Distinct(Pairs(o, ""))
            && (sk, nm) in Pairs(o, "")
            && forall p | p in Pairs(order, "") :: p in Pairs(o, "")
  {
    var start := ZoneStart(order, sk);
    var fin := NextKey(order, start);
    SliceHas(order, start, fin, Var(nm));
    if i :| start <= i < fin && order[i] == Var(nm) {
      VarShown(order, nm, sk, i);
    } else {
      NotShown(order, nm, sk);
      ZoneSection(order, sk, fin);
      InsertedPairs(order, nm, sk, fin);
      InsertedKeys(order, nm, fin);
    }
  }

  // The other lines stay in order, and the new one is the last of its section.
  lemma InsertLast(order: seq<Line>, nm: string, sk: string)
    requires KeysOnce(order) && (sk == "" || Key(sk) in order)
    ensures var o := InsertVar(order, nm, sk);
            if (sk, nm) in Pairs(order, "") then o == order
            else exists i | 0 <= i <= |order| ::
                   && o == order[..i] + [Var(nm)] + order[i..]
                   && SectionAfter(order[..i], "") == sk && (i == |order| || order[i].Key?)
  {
    var start := ZoneStart(order, sk);
    var fin := NextKey(order, start);
    SliceHas(order, start, fin, Var(nm));
    if i :| start <= i < fin && order[i] == Var(nm) {
      VarShown(order, nm, sk, i);
    } else {
      NotShown(order, nm, sk);
      ZoneSection(order, sk, fin);
      assert order[..fin] + [Var(nm)] + order[fin..] == InsertVar(order, nm, sk);
    }
  }

  // A section is erased whole, and nothing else.
  lemma EraseKeyLaw(c: Conf, sk: string)
    ensures var c1 := EraseKey(c, sk);
            && sk !in c1.submaps && c1.order == c.order
            && forall k | k != sk :: (k in c1.submaps <==> k in c.submaps)
                                     && (k in c.submaps ==> c1.submaps[k] == c.submaps[k])
  {
  }

  lemma VarShown(order: seq<Line>, nm: string, sk: string, i: nat)
    requires KeysOnce(order) && (sk == "" || Key(sk) in order) && i < |order| && order[i] == Var(nm)
    requires ZoneStart(order, sk) <= i < NextKey(order, ZoneStart(order, sk))
    ensures (sk, nm) in Pairs(order, "")
  {
    PairsAt(order, "", sk, nm);
    ZoneSection(order, sk, i);
  }

  lemma NotShown(order: seq<Line>, nm: string, sk: string)
    requires KeysOnce(order) && (sk == "" || Key(sk) in order)
    requires forall i | ZoneStart(order, sk) <= i < NextKey(order, ZoneStart(order, sk)) :: order[i] != Var(nm)
    ensures (sk, nm) !in Pairs(order, "")
  {
    forall i | 0 <= i < |order| && order[i] == Var(nm) ensures SectionAfter(order[..i], "") != sk {
      OutsideZone(order, sk, i);
    }
    PairsAt(order, "", sk, nm);
  }

  lemma InsertedPairs(order: seq<Line>, nm: string, sk: string, fin: nat)
    requires fin <= |order| && SectionAfter(order[..fin], "") == sk
    requires Distinct(Pairs(order, "")) && (sk, nm) !in Pairs(order, "")
    ensures var o := order[..fin] + [Var(nm)] + order[fin..];
            && Distinct(Pairs(o, ""))
            && (sk, nm) in Pairs(o, "")
            && forall p | p in Pairs(order, "") :: p in Pairs(o, "")
  {
    var a, b := order[..fin], order[fin..];
    assert order == a + b;
    PairsConcat(a, b, "");
    PairsConcat(a, [Var(nm)], "");
    PairsConcat(a + [Var(nm)], b, "");
    assert [Var(nm)][..0] == [];
    assert Pairs([Var(nm)], sk) == [(sk, nm)];
    DistinctInsert(Pairs(a, ""), Pairs(b, sk), (sk, nm));
  }

  lemma InsertedKeys(order: seq<Line>, nm: string, fin: nat)
    requires KeysOnce(order) && fin <= |order|
    ensures KeysOnce(order[..fin] + [Var(nm)] + order[fin..])
  {
    var o := order[..fin] + [Var(nm)] + order[fin..];
    forall i, j | 0 <= i < j < |o| && o[i].Key? ensures o[i] != o[j] {
      assert o[i] == order[if i < fin then i else i - 1];
      assert j != fin ==> o[j] == order[if j < fin then j else j - 1];
    }
  }

  lemma StillCovered(c: Conf, c1: Conf, sk: string, nm: string)
    requires Covered(c) && Live(c1.submaps, sk, nm) && (sk, nm) in Pairs(c1.order, "")
    requires forall p | p in Pairs(c.order, "") :: p in Pairs(c1.order, "")
    requires forall k, n | (k, n) != (sk, nm) :: Live(c1.submaps, k, n) == Live(c.submaps, k, n)
    ensures Covered(c1)
  {
    forall k, n | Live(c1.submaps, k, n) ensures (k, n) in Pairs(c1.order, "") {
      if (k, n) != (sk, nm) { assert Live(c.submaps, k, n); }
    }
  }

  lemma SetAgrees(c: Conf, nm: string, value: string, sk: string)
    requires Agree(c)
    ensures Agree(Set(c, nm, value, sk, false))
  {
    if Settable(value) {
      SetKeepsKeyed(c, nm, value, sk, false);
      SetLive(c, nm, value, sk, false);
      var c1 := Set(c, nm, value, sk, false);
      if !Live(c.submaps, sk, nm) {
        WithKeyKeeps(c, sk);
        InsertPairs(WithKey(c, sk), nm, sk);
      }
      StillCovered(c, c1, sk, nm);
    }
  }

  lemma EraseAgrees(c: Conf, nm: string, sk: string)
    requires Agree(c)
    ensures Agree(Erase(c, nm, sk))
  {
    if sk in c.submaps { DropLive(c.submaps, sk, nm); }
  }

  lemma EraseKeyAgrees(c: Conf, sk: string)
    requires Agree(c)
    ensures Agree(EraseKey(c, sk))
  {
    var c1 := EraseKey(c, sk);
    forall k, n | Live(c1.submaps, k, n) ensures (k, n) in Pairs(c1.order, "") {
      assert Live(c.submaps, k, n);
    }
  }

  // --- runs ---

  datatype Op = DoSet(nm: string, value: string, sk: string) | DoErase(nm: string, sk: string) | DoEraseKey(sk: string)

  function Do(c: Conf, op: Op): Conf
    requires Keyed(c)
  {
    match op
    case DoSet(nm, value, sk) => Set(c, nm, value, sk, false)
    case DoErase(nm, sk) => Erase(c, nm, sk)
    case DoEraseKey(sk) => EraseKey(c, sk)
  }

  lemma DoAgrees(c: Conf, op: Op)
    requires Agree(c)
    ensures Agree(Do(c, op))
  {
    match op {
      case DoSet(nm, value, sk) => SetAgrees(c, nm, value, sk);
      case DoErase(nm, sk) => EraseAgrees(c, nm, sk);
      case DoEraseKey(sk) => EraseKeyAgrees(c, sk);
    }
  }

  function DoAll(c: Conf, ops: seq<Op>): (r: Conf)
    requires Agree(c)
    ensures Agree(r)
    decreases |ops|
  {
    if ops == [] then c
    else
      DoAgrees(c, ops[0]);
      DoAll(Do(c, ops[0]), ops[1..])
  }

  // After any run from the empty configuration, every value has exactly one line in its
  // section, and so has every section.
  lemma EveryRunAgrees(ops: seq<Op>, sk: string, nm: string)
    ensures var c := DoAll(EMPTY, ops);
            && (Live(c.submaps, sk, nm) ==> multiset(Pairs(c.order, ""))[(sk, nm)] == 1)
            && (sk in c.submaps && sk != "" ==> multiset(c.order)[Key(sk)] == 1)
            && (sk in c.submaps ==> c.submaps[sk] != map[])
  {
    var c := DoAll(EMPTY, ops);
    if Live(c.submaps, sk, nm) {
      Once(Pairs(c.order, ""), (sk, nm));
    }
    if sk in c.submaps && sk != "" {
      var i :| 0 <= i < |c.order| && c.order[i] == Key(sk);
      OnceAt(c.order, Key(sk), i);
    }
  }

  lemma {:induction false} OnceAt<T>(xs: seq<T>, x: T, i: nat)
    requires i < |xs| && xs[i] == x && forall j | 0 <= j < |xs| && j != i :: xs[j] != x
    ensures multiset(xs)[x] == 1
  {
    var a, b := xs[..i], xs[i + 1..];
    assert xs == a + [x] + b;
    assert x !in a && x !in b;
    assert multiset(xs) == multiset(a) + multiset{x} + multiset(b);
  }

  lemma Once<T>(xs: seq<T>, x: T)
    requires Distinct(xs) && x in xs
    ensures multiset(xs)[x] == 1
  {
    var i :| 0 <= i < |xs| && xs[i] == x;
    OnceAt(xs, x, i);
  }
}
