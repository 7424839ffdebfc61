// Loading what was written, line by line: which lines come out the same.
module ConfStable {
  import opened Sequences
  import opened ConfReader
  import opened ConfStore
  import opened ConfAgreement
  import opened ConfFile
  import opened ConfRoundTrip

  // No remark separates a section line from the first variable of the section. Parsing would
  // move it above the section line, which is only recorded with the first variable.
  ghost predicate Settled(events: seq<Event>) {
    forall i | 0 <= i < |events| && events[i].Header? :: i + 1 < |events| && events[i + 1].Assign?
  }

  lemma SectionHead(order: seq<Line>, sk: string)
    requires order != []
    ensures SectionAfter(order, sk) == SectionAfter(order[1..], NextSection(order[0], sk))
  {
    assert order == [order[0]] + order[1..] && [order[0]][..0] == [];
    PairsConcat([order[0]], order[1..], sk);
  }

  lemma ShowHead(order: seq<Line>, rest: seq<Line>, sk: string, m: Submaps)
    requires order != [] && rest == order[1..]
    ensures Show(order, sk, m) == ShowLine(order[0], sk, m) + Show(rest, NextSection(order[0], sk), m)
  {
  }

  lemma {:induction false} ShowSnoc(order: seq<Line>, l: Line, sk: string, m: Submaps)
    ensures Show(order + [l], sk, m) == Show(order, sk, m) + ShowLine(l, SectionAfter(order, sk), m)
    decreases |order|
  {
    if order == [] {
      ShowOne(l, sk, m);
    } else {
      var rest, sk1 := order[1..], NextSection(order[0], sk);
      ShowSnoc(rest, l, sk1, m);
      SectionHead(order, sk);
      ShowHead(order + [l], rest + [l], sk, m);
      Associate(ShowLine(order[0], sk, m), Show(rest, sk1, m), ShowLine(l, SectionAfter(rest, sk1), m));
    }
  }

  lemma ShowOne(l: Line, sk: string, m: Submaps)
    ensures Show([] + [l], sk, m) == ShowLine(l, sk, m)
  {
    assert [] + [l] == [l] && [l][1..] == [];
  }

  // A dead section shows no variable.
  lemma {:induction false} DeadFirst(order: seq<Line>, sk: string, m: Submaps)
    requires sk !in m && Show(order, sk, m) != []
    ensures !Show(order, sk, m)[0].Assign?
    decreases |order|
  {
    if ShowLine(order[0], sk, m) == [] {
      assert Show(order, sk, m) == Show(order[1..], NextSection(order[0], sk), m);
      DeadFirst(order[1..], NextSection(order[0], sk), m);
    }
  }

  // The lines to come are new to acc.
  ghost predicate New(order: seq<Line>, sk: string, m: Submaps, acc: Conf) {
    && KeysOnce(order)
    && (sk != "" ==> Key(sk) !in order)
    && Distinct(Pairs(order, sk))
    && (forall k | Key(k) in order :: Key(k) !in acc.order && k !in acc.submaps)
    && (forall p | p in Pairs(order, sk) && Live(m, p.0, p.1) :: !Live(acc.submaps, p.0, p.1))
  }

  // Either the line of section sk is about to be recorded, or it is the last one in acc.
  ghost predicate Ready(order: seq<Line>, sk: string, m: Submaps, acc: Conf, pending: bool) {
    if pending then
      && sk in m && sk != "" && Key(sk) !in acc.order && sk !in acc.submaps
      && Show(order, sk, m) != [] && Show(order, sk, m)[0].Assign?
    else
      sk in m ==> SectionAfter(acc.order, "") == sk && (sk == "" || Key(sk) in acc.order)
  }

  ghost predicate Shows(events: seq<Event>) {
    Settled(events) && forall e | e in events && e.Assign? :: Settable(e.value)
  }

  lemma NewRest(order: seq<Line>, sk: string, m: Submaps, acc: Conf)
    requires order != [] && New(order, sk, m, acc)
    ensures New(order[1..], NextSection(order[0], sk), m, acc)
  {
    FirstPair(order, sk);
    var rest := order[1..];
    forall i, j | 0 <= i < j < |rest| && rest[i].Key? ensures rest[i] != rest[j] {
      assert order[i + 1] != order[j + 1];
    }
    forall l | l in rest ensures l in order {}
    if order[0].Key? {
      assert order[0] in order;
      forall j | 0 <= j < |rest| ensures rest[j] != order[0] {
        assert order[0] != order[j + 1];
      }
    }
    var pairs, more := Pairs(order, sk), Pairs(rest, NextSection(order[0], sk));
    var d := |pairs| - |more|;
    forall i, j | 0 <= i < j < |more| ensures more[i] != more[j] {
      assert pairs[i + d] == more[i] && pairs[j + d] == more[j];
    }
  }

  lemma ShowsRest(order: seq<Line>, sk: string, m: Submaps)
    requires order != [] && Shows(Show(order, sk, m))
    ensures Shows(Show(order[1..], NextSection(order[0], sk), m))
  {
    var events, more := Show(order, sk, m), Show(order[1..], NextSection(order[0], sk), m);
    var d := |events| - |more|;
    assert forall i | 0 <= i < |more| :: more[i] == events[i + d];
    forall e | e in more && e.Assign? ensures Settable(e.value) {
      assert e in events;
    }
  }

  // The line of the section, if it is still to come.
  lemma LoadKeyShow(sk: string, m: Submaps, acc: Conf, pending: bool)
    requires sk in m
    requires if pending then sk != "" && Key(sk) !in acc.order && sk !in acc.submaps
             else SectionAfter(acc.order, "") == sk && (sk == "" || Key(sk) in acc.order)
    ensures var o := WithKey(acc, sk);
            && Show(o, "", m) == Show(acc.order, "", m) + (if pending then [Header(sk)] else [])
            && SectionAfter(o, "") == sk && (sk == "" || Key(sk) in o)
            && (forall k | k != sk :: Key(k) in o <==> Key(k) in acc.order)
  {
    if pending {
      ShowSnoc(acc.order, Key(sk), "", m);
      assert (acc.order + [Key(sk)])[..|acc.order|] == acc.order;
    }
  }

  lemma LoadVarShow(nm: string, sk: string, m: Submaps, acc: Conf, pending: bool)
    requires Keyed(acc) && Live(m, sk, nm) && !Live(acc.submaps, sk, nm) && Settable(m[sk][nm])
    requires if pending then sk != "" && Key(sk) !in acc.order && sk !in acc.submaps
             else SectionAfter(acc.order, "") == sk && (sk == "" || Key(sk) in acc.order)
    ensures var acc1 := Set(acc, nm, m[sk][nm], sk, true);
            && Show(acc1.order, "", m)
               == Show(acc.order, "", m) + (if pending then [Header(sk)] else []) + [Assign(nm, m[sk][nm])]
            && SectionAfter(acc1.order, "") == sk && (sk == "" || Key(sk) in acc1.order)
            && (forall k | k != sk :: Key(k) in acc1.order <==> Key(k) in acc.order)
  {
    var o := WithKey(acc, sk);
    LoadKeyShow(sk, m, acc, pending);
    var acc1 := Set(acc, nm, m[sk][nm], sk, true);
    assert acc1.order == o + [Var(nm)];
    ShowSnoc(o, Var(nm), "", m);
    assert SectionAfter(o, "") == sk;
    AddVar(o, nm);
    forall k | k != sk ensures Key(k) in acc1.order <==> Key(k) in acc.order {
      assert Key(k) in o <==> Key(k) in acc.order;
    }
  }

  lemma HeadNotInTail<T>(x: T, more: seq<T>)
    requires Distinct([x] + more)
    ensures x !in more
  {
    var all := [x] + more;
    forall i | 0 <= i < |more| ensures more[i] != x {
      assert all[0] != all[i + 1];
    }
  }

  lemma StillNew(order: seq<Line>, sk: string, m: Submaps, acc: Conf, acc1: Conf)
    requires order != [] && order[0].Var? && Distinct(Pairs(order, sk)) && New(order[1..], sk, m, acc)
    requires forall k | Key(k) in order[1..] :: Key(k) !in acc1.order && k !in acc1.submaps
    requires forall k, n | (k, n) != (sk, order[0].nm) :: Live(acc1.submaps, k, n) == Live(acc.submaps, k, n)
    ensures New(order[1..], sk, m, acc1)
  {
    var more := Pairs(order[1..], sk);
    FirstPair(order, sk);
    HeadNotInTail((sk, order[0].nm), more);
    forall p | p in more && Live(m, p.0, p.1) ensures !Live(acc1.submaps, p.0, p.1) {
      assert (p.0, p.1) == p && p != (sk, order[0].nm);
    }
  }

  // What loading a shown variable does to the order.
  lemma LoadVar(order: seq<Line>, sk: string, m: Submaps, acc: Conf, pending: bool)
    requires Keyed(acc) && order != [] && order[0].Var? && Live(m, sk, order[0].nm)
    requires New(order, sk, m, acc) && Ready(order, sk, m, acc, pending) && Settable(m[sk][order[0].nm])
    ensures var acc1 := Set(acc, order[0].nm, m[sk][order[0].nm], sk, true);
            && New(order[1..], sk, m, acc1) && Ready(order[1..], sk, m, acc1, false)
            && Show(acc1.order, "", m)
               == Show(acc.order, "", m) + (if pending then [Header(sk)] else [])
                  + [Assign(order[0].nm, m[sk][order[0].nm])]
  {
    var nm, rest := order[0].nm, order[1..];
    var acc1 := Set(acc, nm, m[sk][nm], sk, true);
    FirstPair(order, sk);
    assert Pairs(order, sk)[0] == (sk, nm);
    NewRest(order, sk, m, acc);
    SetLive(acc, nm, m[sk][nm], sk, true);
    LoadVarShow(nm, sk, m, acc, pending);
    forall k | Key(k) in rest ensures Key(k) !in acc1.order && k !in acc1.submaps {
      assert Key(k) in order && k != sk;
    }
    StillNew(order, sk, m, acc, acc1);
  }

  // What Rebuild promises of the lines from order on.
  ghost predicate Rebuilt(order: seq<Line>, sk: string, m: Submaps, at: string, acc: Conf, pending: bool)
    requires Keyed(acc)
  {
    Show(Load(Show(order, sk, m), at, acc).order, "", m)
    == Show(acc.order, "", m) + (if pending then [Header(sk)] else []) + Show(order, sk, m)
  }

  lemma RebuildComment(order: seq<Line>, sk: string, m: Submaps, at: string, acc: Conf)
    requires Keyed(acc) && order != [] && order[0].Comment?
    requires Rebuilt(order[1..], sk, m, at, acc.(order := acc.order + [order[0]]), false)
    ensures Rebuilt(order, sk, m, at, acc, false)
  {
    var events := Show(order, sk, m);
    assert events[0] == Remark(order[0].text) && events[1..] == Show(order[1..], sk, m);
    ShowSnoc(acc.order, order[0], "", m);
  }

  lemma HeaderFirst(more: seq<Event>, k: string, at: string, acc: Conf)
    requires Keyed(acc)
    ensures Load([Header(k)] + more, at, acc) == Load(more, k, acc)
  {
    assert ([Header(k)] + more)[1..] == more;
  }

  lemma SlideBack<T>(a: seq<T>, x: T, b: seq<T>)
    ensures (a + [x]) + b == (a + []) + ([x] + b)
  {
  }

  lemma RebuildKey(order: seq<Line>, sk: string, m: Submaps, at: string, acc: Conf)
    requires Keyed(acc) && order != [] && order[0].Key? && order[0].key in m
    requires Rebuilt(order[1..], order[0].key, m, order[0].key, acc, true)
    ensures Rebuilt(order, sk, m, at, acc, false)
  {
    var k := order[0].key;
    var more := Show(order[1..], k, m);
    HeaderFirst(more, k, at, acc);
    assert Show(order, sk, m) == [Header(k)] + more;
    SlideBack(Show(acc.order, "", m), Header(k), more);
  }

  lemma AssignFirst(more: seq<Event>, e: Event, sk: string, acc: Conf)
    requires Keyed(acc) && e.Assign?
    ensures Load([e] + more, sk, acc) == Load(more, sk, LoadOne(e, sk, acc))
  {
    assert ([e] + more)[1..] == more;
  }

  lemma Slide<T>(a: seq<T>, x: T, b: seq<T>)
    ensures (a + [x]) + [] + b == a + ([x] + b)
  {
  }

  lemma RebuildVar(order: seq<Line>, sk: string, m: Submaps, acc: Conf, acc1: Conf, pending: bool)
    requires Keyed(acc) && order != [] && order[0].Var? && Live(m, sk, order[0].nm)
    requires acc1 == LoadOne(Assign(order[0].nm, m[sk][order[0].nm]), sk, acc)
    requires Show(acc1.order, "", m) == Show(acc.order, "", m) + (if pending then [Header(sk)] else [])
                                        + [Assign(order[0].nm, m[sk][order[0].nm])]
    requires Rebuilt(order[1..], sk, m, sk, acc1, false)
    ensures Rebuilt(order, sk, m, sk, acc, pending)
  {
    var e, more := Assign(order[0].nm, m[sk][order[0].nm]), Show(order[1..], sk, m);
    AssignFirst(more, e, sk, acc);
    assert Show(order, sk, m) == [e] + more;
    Slide(Show(acc.order, "", m) + (if pending then [Header(sk)] else []), e, more);
  }

  lemma RebuildSkip(order: seq<Line>, sk: string, m: Submaps, at: string, acc: Conf, pending: bool)
    requires Keyed(acc) && order != [] && ShowLine(order[0], sk, m) == []
    requires pending ==> order[0].Var?
    requires Rebuilt(order[1..], NextSection(order[0], sk), m, at, acc, pending)
    ensures Rebuilt(order, sk, m, at, acc, pending)
  {
    assert Show(order, sk, m) == Show(order[1..], NextSection(order[0], sk), m);
  }

  // The line after a section line that was shown is a variable, perhaps a stale one.
  lemma PendingVar(order: seq<Line>, sk: string, m: Submaps, acc: Conf)
    requires Ready(order, sk, m, acc, true)
    ensures order[0].Var?
    ensures !Live(m, sk, order[0].nm) ==> Show(order[1..], sk, m) == Show(order, sk, m)
  {
    if order[0].Key? && order[0].key !in m {
      assert Show(order, sk, m) == Show(order[1..], order[0].key, m);
      DeadFirst(order[1..], order[0].key, m);
    }
  }

  lemma KeyReady(order: seq<Line>, sk: string, m: Submaps, acc: Conf)
    requires order != [] && order[0].Key? && order[0].key in m
    requires New(order, sk, m, acc) && Shows(Show(order, sk, m))
    ensures Ready(order[1..], order[0].key, m, acc, true)
  {
    var events := Show(order, sk, m);
    assert events[0] == Header(order[0].key) && events[1..] == Show(order[1..], order[0].key, m);
    assert events[1].Assign?;
    assert order[0] in order;
  }

  lemma ShownSettable(order: seq<Line>, sk: string, m: Submaps)
    requires order != [] && order[0].Var? && Live(m, sk, order[0].nm) && Shows(Show(order, sk, m))
    ensures Settable(m[sk][order[0].nm])
  {
    var events := Show(order, sk, m);
    assert events[0] == Assign(order[0].nm, m[sk][order[0].nm]) && events[0] in events;
  }

  // Loading what is shown of some lines records the same lines, without the stale ones.
  lemma {:induction false} Rebuild(order: seq<Line>, sk: string, m: Submaps, at: string, acc: Conf, pending: bool)
    requires Keyed(acc) && (sk in m ==> at == sk)
    requires New(order, sk, m, acc) && Ready(order, sk, m, acc, pending) && Shows(Show(order, sk, m))
    ensures Rebuilt(order, sk, m, at, acc, pending)
    decreases |order|
  {
    if order != [] {
      var line, rest, sk1 := order[0], order[1..], NextSection(order[0], sk);
      if pending { PendingVar(order, sk, m, acc); }
      NewRest(order, sk, m, acc);
      ShowsRest(order, sk, m);
      if line.Comment? {
        AddComment(acc.order, line.text);
        Rebuild(rest, sk, m, at, acc.(order := acc.order + [line]), false);
        RebuildComment(order, sk, m, at, acc);
      } else if line.Key? && line.key in m {
        KeyReady(order, sk, m, acc);
        Rebuild(rest, line.key, m, line.key, acc, true);
        RebuildKey(order, sk, m, at, acc);
      } else if line.Var? && Live(m, sk, line.nm) {
        ShownSettable(order, sk, m);
        LoadVar(order, sk, m, acc, pending);
        var acc1 := LoadOne(Assign(line.nm, m[sk][line.nm]), sk, acc);
        Rebuild(rest, sk, m, at, acc1, false);
        RebuildVar(order, sk, m, acc, acc1, pending);
      } else {
        Rebuild(rest, sk1, m, at, acc, pending);
        RebuildSkip(order, sk, m, at, acc, pending);
      }
    }
  }

  // An agreeing, settled configuration is written as the same lines again after being loaded back.
  lemma SettledFixed(c: Conf)
    requires Agree(c) && Printable(c) && Settled(Written(c))
    ensures Written(Load(Written(c), "", EMPTY)) == Written(c)
  {
    LoadBackIff(c);
    assert Pairs([], "") == [];
    Rebuild(c.order, "", c.submaps, "", EMPTY, false);
    var r := Load(Written(c), "", EMPTY);
    assert Show(r.order, "", c.submaps) == [] + [] + Written(c);
  }

  // --- which configurations are settled ---

  // A live section shows one of its variables before anything else.
  lemma {:induction false} FirstShown(order: seq<Line>, sk: string, m: Submaps, nm: string)
    requires (sk, nm) in Pairs(order, sk) && Live(m, sk, nm) && Key(sk) !in order
    requires forall l | l in order :: !l.Comment?
    ensures Show(order, sk, m) != [] && Show(order, sk, m)[0].Assign?
    decreases |order|
  {
    assert order[0] in order;
    FirstPair(order, sk);
    if order[0].Key? {
      NotAgain(order[1..], order[0].key, sk, nm);
    } else if !Live(m, sk, order[0].nm) {
      forall l | l in order[1..] ensures l in order {}
      FirstShown(order[1..], sk, m, nm);
      assert Show(order, sk, m) == Show(order[1..], sk, m);
    } else {
      assert ShowLine(order[0], sk, m) == [Assign(order[0].nm, m[sk][order[0].nm])];
    }
  }

  // Without a section line for sk there is no variable line in section sk.
  lemma {:induction false} NotAgain(order: seq<Line>, s0: string, sk: string, nm: string)
    requires s0 != sk && Key(sk) !in order
    ensures (sk, nm) !in Pairs(order, s0)
    decreases |order|
  {
    if order != [] {
      FirstPair(order, s0);
      assert order[0] in order;
      NotAgain(order[1..], NextSection(order[0], s0), sk, nm);
    }
  }

  // Every live section still to come has a variable line to come.
  ghost predicate Inhabited(order: seq<Line>, sk: string, m: Submaps) {
    forall k | Key(k) in order && k in m :: exists nm :: Live(m, k, nm) && (k, nm) in Pairs(order, sk)
  }

  lemma InhabitedRest(order: seq<Line>, sk: string, m: Submaps)
    requires order != [] && KeysOnce(order) && (sk != "" ==> Key(sk) !in order) && Inhabited(order, sk, m)
    ensures KeysOnce(order[1..]) && Inhabited(order[1..], NextSection(order[0], sk), m)
    ensures order[0].Key? ==> order[0] !in order[1..]
  {
    var line, rest, sk1 := order[0], order[1..], NextSection(order[0], sk);
    assert forall j | 0 <= j < |rest| :: rest[j] == order[j + 1];
    FirstPair(order, sk);
    forall k | Key(k) in rest && k in m ensures exists nm :: Live(m, k, nm) && (k, nm) in Pairs(rest, sk1) {
      assert Key(k) in order;
      var nm :| Live(m, k, nm) && (k, nm) in Pairs(order, sk);
      assert sk != k;
    }
  }

  lemma {:induction false} PlainSettled(order: seq<Line>, sk: string, m: Submaps)
    requires KeysOnce(order) && (sk != "" ==> Key(sk) !in order) && Inhabited(order, sk, m)
    requires forall l | l in order :: !l.Comment?
    ensures Settled(Show(order, sk, m))
    decreases |order|
  {
    if order != [] {
      var line, rest, sk1 := order[0], order[1..], NextSection(order[0], sk);
      assert line in order;
      forall l | l in rest ensures l in order {}
      InhabitedRest(order, sk, m);
      PlainSettled(rest, sk1, m);
      if line.Key? && line.key in m {
        FirstPair(order, sk);
        var nm :| Live(m, line.key, nm) && (line.key, nm) in Pairs(order, sk);
        FirstShown(rest, line.key, m, nm);
      }
    }
  }

  lemma CommentFreeSettled(c: Conf)
    requires Agree(c) && forall l | l in c.order :: !l.Comment?
    ensures Settled(Written(c))
  {
    forall k | Key(k) in c.order && k in c.submaps
      ensures exists nm :: Live(c.submaps, k, nm) && (k, nm) in Pairs(c.order, "")
    {
      assert c.submaps[k].Keys != {};
      var nm :| nm in c.submaps[k];
      assert Live(c.submaps, k, nm);
    }
    PlainSettled(c.order, "", c.submaps);
  }

  // --- parsed texts ---

  ghost predicate KeyThenVar(order: seq<Line>) {
    forall i | 0 <= i < |order| && order[i].Key? :: i + 1 < |order| && order[i + 1].Var?
  }

  lemma {:induction false} LoadKeyThenVar(events: seq<Event>, sk: string, c: Conf)
    requires Keyed(c) && KeyThenVar(c.order)
    ensures KeyThenVar(Load(events, sk, c).order)
    decreases |events|
  {
    if events != [] {
      LoadKeyThenVar(events[1..], SectionOf(events[0], sk), LoadOne(events[0], sk, c));
    }
  }

  lemma {:induction false} FreshSettled(order: seq<Line>, sk: string, m: Submaps)
    requires KeyThenVar(order) && forall p | p in Pairs(order, sk) :: Live(m, p.0, p.1)
    ensures Settled(Show(order, sk, m))
    ensures order != [] && order[0].Var? ==> Show(order, sk, m) != [] && Show(order, sk, m)[0].Assign?
    decreases |order|
  {
    if order != [] {
      var rest, sk1 := order[1..], NextSection(order[0], sk);
      FirstPair(order, sk);
      forall i | 0 <= i < |rest| && rest[i].Key? ensures i + 1 < |rest| && rest[i + 1].Var? {
        assert order[i + 1].Key?;
      }
      FreshSettled(rest, sk1, m);
      if order[0].Var? {
        assert Pairs(order, sk)[0] == (sk, order[0].nm);
      }
    }
  }

  // What is loaded without reopening a section is settled.
  lemma LoadSettled(events: seq<Event>)
    requires !Reopens(events, "", EMPTY)
    ensures var c := Load(events, "", EMPTY); Agree(c) && Settled(Written(c))
  {
    assert Pairs([], "") == [];
    LoadCoveredIff(events, "", EMPTY);
    LoadKeyThenVar(events, "", EMPTY);
    FreshSettled(Load(events, "", EMPTY).order, "", Load(events, "", EMPTY).submaps);
  }
}
