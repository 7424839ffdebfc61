// Writing a configuration and parsing the text again.
module ConfRoundTrip {
  import opened ConfReader
  import opened ConfWriter
  import opened ConfStore
  import opened ConfAgreement
  import opened ConfFile

  // Every line to be written can be read back.
  ghost predicate Printable(c: Conf) {
    forall e | e in Written(c) :: Good(e) && Fits(e)
  }

  lemma FirstPair(order: seq<Line>, sk: string)
    requires order != []
    ensures Pairs(order, sk)
         == (if order[0].Var? then [(sk, order[0].nm)] else []) + Pairs(order[1..], NextSection(order[0], sk))
  {
    assert order == [order[0]] + order[1..];
    PairsConcat([order[0]], order[1..], sk);
    assert [order[0]][..0] == [];
  }

  // The value that loading what is shown of m onto acc gives (k, n).
  ghost predicate Merged(r: Submaps, acc: Submaps, m: Submaps, pairs: seq<(string, string)>, k: string, n: string) {
    var shown := Live(m, k, n) && (k, n) in pairs;
    && Live(r, k, n) == (shown || Live(acc, k, n))
    && (Live(r, k, n) ==> r[k][n] == if shown then m[k][n] else acc[k][n])
  }

  // Loading what is shown recovers exactly the values that have a line in their section.
  lemma {:induction false} LoadShow(order: seq<Line>, sk: string, m: Submaps, at: string, acc: Conf)
    requires Keyed(acc) && NoEmpty(acc.submaps)
    requires sk in m ==> at == sk
    requires forall e | e in Show(order, sk, m) && e.Assign? :: Settable(e.value)
    ensures var r := Load(Show(order, sk, m), at, acc).submaps;
            NoEmpty(r) && forall k, n :: Merged(r, acc.submaps, m, Pairs(order, sk), k, n)
    decreases |order|
  {
    if order == [] {
    } else {
      var line, rest, sk1 := order[0], order[1..], NextSection(order[0], sk);
      var shown, more := ShowLine(line, sk, m), Show(rest, sk1, m);
      assert Show(order, sk, m) == shown + more;
      FirstPair(order, sk);
      forall e | e in more && e.Assign? ensures Settable(e.value) {
        assert e in Show(order, sk, m);
      }
      if shown == [] {
        assert shown + more == more;
        LoadShow(rest, sk1, m, at, acc);
        forall k, n ensures Merged(Load(more, at, acc).submaps, acc.submaps, m, Pairs(order, sk), k, n) {
          assert Merged(Load(more, at, acc).submaps, acc.submaps, m, Pairs(rest, sk1), k, n);
        }
      } else {
        LoadFirst(order, sk, m, at, acc);
      }
    }
  }

  lemma LoadFirst(order: seq<Line>, sk: string, m: Submaps, at: string, acc: Conf)
    requires Keyed(acc) && NoEmpty(acc.submaps) && order != [] && ShowLine(order[0], sk, m) != []
    requires sk in m ==> at == sk
    requires forall e | e in Show(order, sk, m) && e.Assign? :: Settable(e.value)
    ensures var r := Load(Show(order, sk, m), at, acc).submaps;
            NoEmpty(r) && forall k, n :: Merged(r, acc.submaps, m, Pairs(order, sk), k, n)
    decreases |order|, 0
  {
    var line, rest, sk1 := order[0], order[1..], NextSection(order[0], sk);
    var more := Show(rest, sk1, m);
    var e := ShowLine(line, sk, m)[0];
    var events := Show(order, sk, m);
    assert events == [e] + more;
    assert events[0] == e && events[1..] == more;
    forall x | x in more && x.Assign? ensures Settable(x.value) {
      assert x in events;
    }
    assert e in events;
    FirstPair(order, sk);
    var acc1 := LoadOne(e, at, acc);
    if line.Var? { SetLive(acc, line.nm, m[sk][line.nm], sk, true); }
    LoadShow(rest, sk1, m, SectionOf(e, at), acc1);
    var r := Load(events, at, acc).submaps;
    assert r == Load(more, SectionOf(e, at), acc1).submaps;
    forall k, n ensures Merged(r, acc.submaps, m, Pairs(order, sk), k, n) {
      assert Merged(r, acc1.submaps, m, Pairs(rest, sk1), k, n);
    }
  }

  lemma SameMaps(a: Submaps, b: Submaps)
    requires NoEmpty(a) && NoEmpty(b)
    requires forall k, n :: Live(a, k, n) == Live(b, k, n) && (Live(a, k, n) ==> a[k][n] == b[k][n])
    ensures a == b
  {
    SubMaps(a, b);
    SubMaps(b, a);
    forall k | k in a ensures a[k] == b[k] {
      forall n ensures n in a[k] <==> n in b[k] {
        assert Live(a, k, n) == Live(b, k, n);
      }
      forall n | n in a[k] ensures a[k][n] == b[k][n] {
        assert Live(a, k, n);
      }
    }
  }

  lemma SubMaps(a: Submaps, b: Submaps)
    requires NoEmpty(a) && forall k, n :: Live(a, k, n) ==> Live(b, k, n)
    ensures a.Keys <= b.Keys
  {
    forall k | k in a ensures k in b {
      assert a[k].Keys != {};
      var n :| n in a[k];
      assert Live(a, k, n);
    }
  }

  // What remarks say does not matter to the values.
  lemma {:induction false} LoadReread(events: seq<Event>, sk: string, c: Conf, d: Conf)
    requires Keyed(c) && Keyed(d) && c.submaps == d.submaps
    ensures Load(RereadAll(events), sk, c).submaps == Load(events, sk, d).submaps
    decreases |events|
  {
    if events != [] {
      var e, again := events[0], RereadAll(events);
      assert again[0] == Reread(e) && again[1..] == RereadAll(events[1..]);
      LoadReread(events[1..], SectionOf(e, sk), LoadOne(Reread(e), sk, c), LoadOne(e, sk, d));
    }
  }

  // Parsing what was written gives the values back if and only if each has a line in its
  // own section.
  lemma WriteParseIff(c: Conf)
    requires NoEmpty(c.submaps) && Printable(c)
    ensures Parse(WriteText(c)).submaps == c.submaps <==> Covered(c)
  {
    ReadAgain(Written(c));
    LoadReread(Written(c), "", EMPTY, EMPTY);
    LoadBackIff(c);
  }

  // So does loading the lines.
  lemma LoadBackIff(c: Conf)
    requires NoEmpty(c.submaps) && Printable(c)
    ensures Load(Written(c), "", EMPTY).submaps == c.submaps <==> Covered(c)
  {
    forall e | e in Written(c) && e.Assign? ensures Settable(e.value) {
      assert Good(e);
    }
    LoadShow(c.order, "", c.submaps, "", EMPTY);
    var r := Load(Written(c), "", EMPTY).submaps;
    forall k, n ensures Live(r, k, n) == (Live(c.submaps, k, n) && (k, n) in Pairs(c.order, ""))
                     && (Live(r, k, n) ==> r[k][n] == c.submaps[k][n])
    {
      assert Merged(r, EMPTY.submaps, c.submaps, Pairs(c.order, ""), k, n);
    }
    if Covered(c) {
      SameMaps(r, c.submaps);
    }
  }

  // In particular after any run of set, erase and eraseKey on an agreeing configuration.
  lemma RunRoundTrips(c: Conf, ops: seq<Op>)
    requires Agree(c) && Printable(DoAll(c, ops))
    ensures Parse(WriteText(DoAll(c, ops))).submaps == DoAll(c, ops).submaps
  {
    WriteParseIff(DoAll(c, ops));
  }

  // --- configurations that come from a text ---

  // Every variable line is that of a value.
  ghost predicate Fresh(c: Conf) {
    forall p | p in Pairs(c.order, "") :: Live(c.submaps, p.0, p.1)
  }

  lemma AddComment(order: seq<Line>, t: string)
    ensures SectionAfter(order + [Comment(t)], "") == SectionAfter(order, "")
    ensures Pairs(order + [Comment(t)], "") == Pairs(order, "")
    ensures KeysOnce(order) ==> KeysOnce(order + [Comment(t)])
  {
    var o := order + [Comment(t)];
    assert o[..|order|] == order;
  }

  lemma AddVar(order: seq<Line>, nm: string)
    ensures SectionAfter(order + [Var(nm)], "") == SectionAfter(order, "")
    ensures Pairs(order + [Var(nm)], "") == Pairs(order, "") + [(SectionAfter(order, ""), nm)]
    ensures KeysOnce(order) ==> KeysOnce(order + [Var(nm)])
  {
    var o := order + [Var(nm)];
    assert o[..|order|] == order;
  }

  lemma DistinctOneMore<T>(a: seq<T>, x: T)
    requires Distinct(a) && x !in a
    ensures Distinct(a + [x])
  {
  }

  lemma StillFresh(c: Conf, c1: Conf, sk: string, nm: string)
    requires Fresh(c) && Live(c1.submaps, sk, nm)
    requires forall p | p in Pairs(c1.order, "") :: p in Pairs(c.order, "") || p == (sk, nm)
    requires forall k, n | (k, n) != (sk, nm) :: Live(c1.submaps, k, n) == Live(c.submaps, k, n)
    ensures Fresh(c1)
  {
    forall p | p in Pairs(c1.order, "") ensures Live(c1.submaps, p.0, p.1) {
      if p != (sk, nm) { assert (p.0, p.1) != (sk, nm); }
    }
  }

  lemma NewAgrees(nm: string, v: string, sk: string, c: Conf)
    requires Agree(c) && Fresh(c) && Settable(v) && !Live(c.submaps, sk, nm)
    requires SectionAfter(WithKey(c, sk), "") == sk
    ensures Agree(Set(c, nm, v, sk, true)) && Fresh(Set(c, nm, v, sk, true))
  {
    var o, c1 := WithKey(c, sk), Set(c, nm, v, sk, true);
    SetLive(c, nm, v, sk, true);
    SetKeepsKeyed(c, nm, v, sk, true);
    WithKeyKeeps(c, sk);
    AddVar(o, nm);
    SetNoEmpty(c, nm, v, sk, true);
    var pairs, pairs1 := Pairs(c.order, ""), Pairs(c1.order, "");
    assert pairs1 == pairs + [(sk, nm)];
    StillFresh(c, c1, sk, nm);
    StillCovered(c, c1, sk, nm);
    assert (sk, nm) !in pairs;
    DistinctOneMore(pairs, (sk, nm));
  }

  lemma OldAgrees(nm: string, v: string, sk: string, c: Conf)
    requires Agree(c) && Fresh(c) && Settable(v) && Live(c.submaps, sk, nm)
    ensures Agree(Set(c, nm, v, sk, true)) && Fresh(Set(c, nm, v, sk, true))
  {
    var c1 := Set(c, nm, v, sk, true);
    SetLive(c, nm, v, sk, true);
    SetKeepsKeyed(c, nm, v, sk, true);
    StillCovered(c, c1, sk, nm);
    StillFresh(c, c1, sk, nm);
  }

  lemma LoadOneAgrees(e: Event, sk: string, c: Conf)
    requires Agree(c) && Fresh(c) && !Misplaces(e, sk, c)
    ensures Agree(LoadOne(e, sk, c)) && Fresh(LoadOne(e, sk, c))
  {
    match e {
      case Remark(t) => AddComment(c.order, t);
      case Header(k) =>
      case Assign(nm, v) =>
        if Settable(v) {
          if Live(c.submaps, sk, nm) { OldAgrees(nm, v, sk, c); } else { NewAgrees(nm, v, sk, c); }
        }
    }
  }

  // A value whose line is lost: its section is over and will not come back.
  ghost predicate Stuck(c: Conf, k: string, n: string) {
    && Live(c.submaps, k, n)
    && (k, n) !in Pairs(c.order, "")
    && SectionAfter(c.order, "") != k
    && (k == "" || Key(k) in c.order)
  }

  lemma LoadOneStuck(e: Event, sk: string, c: Conf, k: string, n: string)
    requires Keyed(c) && Stuck(c, k, n)
    ensures Stuck(LoadOne(e, sk, c), k, n)
  {
    match e {
      case Remark(t) => AddComment(c.order, t);
      case Header(_) =>
      case Assign(nm, v) =>
        if Settable(v) {
          SetLive(c, nm, v, sk, true);
          if !Live(c.submaps, sk, nm) {
            var o := WithKey(c, sk);
            if o != c.order { assert o[..|c.order|] == c.order; }
            AddVar(o, nm);
          }
        }
    }
  }

  lemma {:induction false} LoadStuck(events: seq<Event>, sk: string, c: Conf, k: string, n: string)
    requires Keyed(c) && Stuck(c, k, n)
    ensures Stuck(Load(events, sk, c), k, n)
    decreases |events|
  {
    if events != [] {
      LoadOneStuck(events[0], sk, c, k, n);
      LoadStuck(events[1..], SectionOf(events[0], sk), LoadOne(events[0], sk, c), k, n);
    }
  }

  lemma ReopenSticks(e: Event, sk: string, c: Conf)
    requires Agree(c) && Fresh(c) && Misplaces(e, sk, c)
    ensures Stuck(LoadOne(e, sk, c), sk, e.nm)
  {
    WithKeyKeeps(c, sk);
    SetLive(c, e.nm, e.value, sk, true);
    var o := WithKey(c, sk);
    AddVar(o, e.nm);
    assert Key(sk) in o ==> Key(sk) in o + [Var(e.nm)];
  }

  lemma {:induction false} LoadCoveredIff(events: seq<Event>, sk: string, c: Conf)
    requires Agree(c) && Fresh(c)
    ensures Covered(Load(events, sk, c)) <==> !Reopens(events, sk, c)
    ensures !Reopens(events, sk, c) ==> Agree(Load(events, sk, c)) && Fresh(Load(events, sk, c))
    decreases |events|
  {
    if events != [] {
      var e, sk1, c1 := events[0], SectionOf(events[0], sk), LoadOne(events[0], sk, c);
      if Misplaces(e, sk, c) {
        ReopenSticks(e, sk, c);
        LoadStuck(events[1..], sk1, c1, sk, e.nm);
      } else {
        LoadOneAgrees(e, sk, c);
        LoadCoveredIff(events[1..], sk1, c1);
      }
    }
  }

  // --- rewriting a parsed text ---

  // Sections, names and values are such as a text can say.
  ghost predicate GoodValues(m: Submaps) {
    && (forall sk | sk in m :: GoodKey(sk))
    && (forall sk, nm | Live(m, sk, nm) :: GoodName(nm) && GoodValue(m[sk][nm]))
  }

  ghost predicate GoodRemarks(order: seq<Line>) { forall t | Comment(t) in order :: GoodRemark(t) }

  ghost predicate GoodConf(c: Conf) { GoodValues(c.submaps) && GoodRemarks(c.order) }

  lemma LoadOneGood(e: Event, sk: string, c: Conf)
    requires Keyed(c) && GoodValues(c.submaps) && Readable(e) && GoodKey(sk)
    ensures GoodValues(LoadOne(e, sk, c).submaps) && GoodKey(SectionOf(e, sk))
    ensures GoodRemarks(c.order) && (e.Remark? ==> !Dangling(e.text)) ==> GoodRemarks(LoadOne(e, sk, c).order)
  {
    if e.Assign? && Settable(e.value) {
      var c1 := LoadOne(e, sk, c);
      SetLive(c, e.nm, e.value, sk, true);
      forall k, n | Live(c1.submaps, k, n) ensures GoodName(n) && GoodValue(c1.submaps[k][n]) {
        if (k, n) != (sk, e.nm) { assert Live(c.submaps, k, n); }
      }
    }
  }

  lemma {:induction false} LoadGood(events: seq<Event>, sk: string, c: Conf)
    requires Keyed(c) && GoodValues(c.submaps) && GoodKey(sk)
    requires forall e | e in events :: Readable(e)
    ensures GoodValues(Load(events, sk, c).submaps)
    ensures GoodRemarks(c.order) && NoDangling(events) ==> GoodRemarks(Load(events, sk, c).order)
    decreases |events|
  {
    if events != [] {
      assert events[0] in events;
      LoadOneGood(events[0], sk, c);
      forall e | e in events[1..] ensures e in events {}
      LoadGood(events[1..], SectionOf(events[0], sk), LoadOne(events[0], sk, c));
    }
  }

  // Whatever the text, what is parsed from it has such sections, names and values.
  lemma ParsedGood(text: string)
    ensures GoodValues(Parse(text).submaps) && NoEmpty(Parse(text).submaps)
    ensures NoDangling(Events(Open(text))) ==> GoodRemarks(Parse(text).order)
  {
    EventsReadable(Open(text));
    LoadGood(Events(Open(text)), "", EMPTY);
    LoadNoEmpty(Events(Open(text)), "", EMPTY);
  }

  ghost predicate ShortConf(c: Conf) {
    && (forall sk | sk in c.submaps :: Fits(Header(sk)))
    && (forall sk, nm | Live(c.submaps, sk, nm) :: Fits(Assign(nm, c.submaps[sk][nm])))
    && (forall l | l in c.order && l.Comment? :: Fits(Remark(l.text)))
  }

  lemma {:induction false} ShowGood(c: Conf, order: seq<Line>, sk: string)
    requires forall l | l in order :: l in c.order
    ensures GoodConf(c) ==> forall e | e in Show(order, sk, c.submaps) :: Good(e)
    ensures ShortConf(c) ==> forall e | e in Show(order, sk, c.submaps) :: Fits(e)
    decreases |order|
  {
    if order != [] {
      assert order[0] in order;
      forall l | l in order[1..] ensures l in c.order {
        assert l in order;
      }
      ShowGood(c, order[1..], NextSection(order[0], sk));
      forall e | e in ShowLine(order[0], sk, c.submaps)
        ensures (GoodConf(c) ==> Good(e)) && (ShortConf(c) ==> Fits(e))
      {
        if order[0].Var? { assert Live(c.submaps, sk, order[0].nm); }
      }
    }
  }

  // Good names, values and keys that are not too long can be printed.
  lemma GoodPrintable(c: Conf)
    requires GoodConf(c) && ShortConf(c)
    ensures Printable(c)
  {
    ShowGood(c, c.order, "");
  }

  // Writing and parsing gives the same values back if and only if each has a line in its own
  // section and they are such as a text can say.
  lemma RoundTripIff(c: Conf)
    requires NoEmpty(c.submaps) && GoodRemarks(c.order) && ShortConf(c)
    ensures Parse(WriteText(c)).submaps == c.submaps <==> Covered(c) && GoodValues(c.submaps)
  {
    ParsedGood(WriteText(c));
    if GoodValues(c.submaps) {
      GoodPrintable(c);
      WriteParseIff(c);
    }
  }

  // What is parsed from a text can be printed, if no comment would continue into the next line and
  // its lines are not too long.
  lemma ParsedPrintable(text: string)
    requires NoDangling(Events(Open(text))) && ShortConf(Parse(text))
    ensures Printable(Parse(text)) && NoEmpty(Parse(text).submaps)
  {
    ParsedGood(text);
    GoodPrintable(Parse(text));
  }

  lemma {:induction false} LoadNoEmpty(events: seq<Event>, sk: string, c: Conf)
    requires Keyed(c) && NoEmpty(c.submaps)
    ensures NoEmpty(Load(events, sk, c).submaps)
    decreases |events|
  {
    if events != [] {
      if events[0].Assign? { SetNoEmpty(c, events[0].nm, events[0].value, sk, true); }
      LoadNoEmpty(events[1..], SectionOf(events[0], sk), LoadOne(events[0], sk, c));
    }
  }

  // --- reopened sections, from the events alone ---

  // c holds the variables seen, and the last section line is that of the newest section.
  ghost predicate Tracks(c: Conf, seen: seq<(string, string)>) {
    && Keyed(c) && NoEmpty(c.submaps)
    && (forall k, n :: Live(c.submaps, k, n) <==> (k, n) in seen)
    && (forall k | Key(k) in c.order :: k in c.submaps)
    && LastSection(c.order) == Newest(seen)
  }

  lemma SectionSeen(c: Conf, seen: seq<(string, string)>, sk: string)
    requires Tracks(c, seen)
    ensures sk in c.submaps <==> HasSection(seen, sk)
  {
    if sk in c.submaps {
      assert c.submaps[sk].Keys != {};
      var n :| n in c.submaps[sk];
      assert Live(c.submaps, sk, n);
      var i :| 0 <= i < |seen| && seen[i] == (sk, n);
    }
    forall i | 0 <= i < |seen| ensures seen[i].0 in c.submaps {
      assert (seen[i].0, seen[i].1) in seen;
      assert Live(c.submaps, seen[i].0, seen[i].1);
    }
  }

  lemma NewestOfOne(seen: seq<(string, string)>, sk: string, nm: string)
    ensures Newest(seen + [(sk, nm)]) == if sk == "" || HasSection(seen, sk) then Newest(seen) else sk
  {
    assert (seen + [(sk, nm)])[..|seen|] == seen;
  }

  lemma LastOfKey(order: seq<Line>, sk: string)
    ensures LastSection(order + [Key(sk)]) == sk
  {
  }

  lemma NewestIs(c: Conf, seen: seq<(string, string)>, sk: string, nm: string)
    requires Tracks(c, seen)
    ensures LastSection(WithKey(c, sk)) == Newest(seen + [(sk, nm)])
  {
    NewestOfOne(seen, sk, nm);
    SectionSeen(c, seen, sk);
    LastOfKey(c.order, sk);
  }

  lemma LastIsNewest(c: Conf, seen: seq<(string, string)>, sk: string, nm: string, v: string)
    requires Tracks(c, seen) && Settable(v)
    ensures LastSection(Set(c, nm, v, sk, true).order) == Newest(seen + [(sk, nm)])
  {
    NewestIs(c, seen, sk, nm);
    AddVar(WithKey(c, sk), nm);
    if Live(c.submaps, sk, nm) {
      assert WithKey(c, sk) == c.order;
    }
  }

  lemma TracksOne(c: Conf, seen: seq<(string, string)>, sk: string, nm: string, v: string)
    requires Tracks(c, seen) && Settable(v)
    ensures Tracks(Set(c, nm, v, sk, true), seen + [(sk, nm)])
  {
    var c1 := Set(c, nm, v, sk, true);
    SetLive(c, nm, v, sk, true);
    SetKeepsKeyed(c, nm, v, sk, true);
    SetNoEmpty(c, nm, v, sk, true);
    LastIsNewest(c, seen, sk, nm, v);
    forall k, n ensures Live(c1.submaps, k, n) <==> (k, n) in seen + [(sk, nm)] {
      if (k, n) != (sk, nm) { assert Live(c1.submaps, k, n) == Live(c.submaps, k, n); }
    }
  }

  lemma TracksRemark(c: Conf, seen: seq<(string, string)>, t: string)
    requires Tracks(c, seen)
    ensures Tracks(c.(order := c.order + [Comment(t)]), seen)
  {
    AddComment(c.order, t);
  }

  lemma {:induction false} ReopensIff(events: seq<Event>, sk: string, c: Conf, seen: seq<(string, string)>)
    requires Tracks(c, seen)
    ensures Reopens(events, sk, c) <==> Reopened(events, sk, seen)
    decreases |events|
  {
    if events != [] {
      var e := events[0];
      match e {
        case Remark(t) =>
          TracksRemark(c, seen, t);
          ReopensIff(events[1..], sk, LoadOne(e, sk, c), seen);
        case Header(k) => ReopensIff(events[1..], k, c, seen);
        case Assign(nm, v) =>
          if Settable(v) {
            NewestIs(c, seen, sk, nm);
            assert Misplaces(e, sk, c) <==> (sk, nm) !in seen && Newest(seen + [(sk, nm)]) != sk;
            TracksOne(c, seen, sk, nm, v);
            ReopensIff(events[1..], sk, LoadOne(e, sk, c), seen + [(sk, nm)]);
          } else {
            ReopensIff(events[1..], sk, c, seen);
          }
      }
    }
  }

  // Parsing a text, writing it and parsing it again gives the same values if and only if
  // the text reopens no section for a new variable.
  lemma RewriteIff(text: string)
    requires NoDangling(Events(Open(text))) && ShortConf(Parse(text))
    ensures Parse(WriteText(Parse(text))).submaps == Parse(text).submaps
            <==> !Reopened(Events(Open(text)), "", [])
  {
    ParsedPrintable(text);
    WriteParseIff(Parse(text));
    assert Pairs([], "") == [];
    LoadCoveredIff(Events(Open(text)), "", EMPTY);
    ReopensIff(Events(Open(text)), "", EMPTY, []);
  }

  // Such texts: [a] x = v, [b] x = v, [a] z = v. Rewriting the file loses z.
  function ReopenText(a: string, b: string, x: string, z: string, v: string): seq<Event> {
    [Header(a), Assign(x, v), Header(b), Assign(x, v), Header(a), Assign(z, v)]
  }

  function ReopenConf(a: string, b: string, x: string, z: string, v: string): Conf {
    Conf(map[a := map[x := v, z := v], b := map[x := v]], [Key(a), Var(x), Key(b), Var(x), Var(z)])
  }

  lemma LoadTwo(k: string, nm: string, v: string, more: seq<Event>, sk: string, c: Conf, c1: Conf)
    requires Keyed(c) && c1 == LoadOne(Assign(nm, v), k, c)
    ensures Load([Header(k), Assign(nm, v)] + more, sk, c) == Load(more, k, c1)
  {
    var events := [Header(k), Assign(nm, v)] + more;
    assert events[1..] == [Assign(nm, v)] + more;
    assert events[1..][1..] == more;
  }

  lemma SetNewSection(c: Conf, nm: string, v: string, sk: string)
    requires Keyed(c) && Settable(v) && sk !in c.submaps && sk != "" && Key(sk) !in c.order
    ensures Set(c, nm, v, sk, true) == Conf(c.submaps[sk := map[nm := v]], c.order + [Key(sk), Var(nm)])
  {
    assert c.order + [Key(sk)] + [Var(nm)] == c.order + [Key(sk), Var(nm)];
  }

  lemma ReopenStart(a: string, b: string, x: string, v: string, c1: Conf, c2: Conf)
    requires a != "" && b != "" && a != b && Settable(v)
    requires c1 == Conf(map[a := map[x := v]], [Key(a), Var(x)])
    requires c2 == Conf(map[a := map[x := v], b := map[x := v]], [Key(a), Var(x), Key(b), Var(x)])
    ensures LoadOne(Assign(x, v), a, EMPTY) == c1
    ensures LoadOne(Assign(x, v), b, c1) == c2
  {
    SetNewSection(EMPTY, x, v, a);
    SetNewSection(c1, x, v, b);
    assert c1.submaps[b := map[x := v]] == c2.submaps;
  }

  lemma ReopenLoads(a: string, b: string, x: string, z: string, v: string)
    requires a != "" && b != "" && a != b && x != z && Settable(v)
    ensures Load(ReopenText(a, b, x, z, v), "", EMPTY) == ReopenConf(a, b, x, z, v)
  {
    var c1 := Conf(map[a := map[x := v]], [Key(a), Var(x)]);
    var c2 := Conf(map[a := map[x := v], b := map[x := v]], [Key(a), Var(x), Key(b), Var(x)]);
    var last := [Header(a), Assign(z, v)];
    ReopenStart(a, b, x, v, c1, c2);
    LoadTwo(a, x, v, [Header(b), Assign(x, v)] + last, "", EMPTY, c1);
    LoadTwo(b, x, v, last, a, c1, c2);
    assert ReopenText(a, b, x, z, v) == [Header(a), Assign(x, v)] + ([Header(b), Assign(x, v)] + last);
    ReopenEnd(a, b, x, z, v, c2);
  }

  lemma ReopenEnd(a: string, b: string, x: string, z: string, v: string, c2: Conf)
    requires a != "" && b != "" && a != b && x != z && Settable(v)
    requires c2 == Conf(map[a := map[x := v], b := map[x := v]], [Key(a), Var(x), Key(b), Var(x)])
    ensures Load([Header(a), Assign(z, v)], b, c2) == ReopenConf(a, b, x, z, v)
  {
    var c3 := ReopenConf(a, b, x, z, v);
    assert c3.submaps == c2.submaps[a := c2.submaps[a][z := v]];
    assert c3.order == c2.order + [Var(z)];
    LoadTwo(a, z, v, [], b, c2, c3);
    assert [Header(a), Assign(z, v)] == [Header(a), Assign(z, v)] + [];
  }

  lemma ReopenUncovered(a: string, b: string, x: string, z: string, v: string)
    requires a != "" && b != "" && a != b && x != z
    ensures !Covered(ReopenConf(a, b, x, z, v))
  {
    var c := ReopenConf(a, b, x, z, v);
    PairsAt(c.order, "", a, z);
    assert c.order[..4][3] == Var(x) && c.order[..4][..3] == c.order[..3] && c.order[..3][2] == Key(b);
    assert SectionAfter(c.order[..4], "") == b && SectionAfter(c.order[..3], "") == b;
    assert Live(c.submaps, a, z);
  }

  lemma ReopenPrintable(a: string, b: string, x: string, z: string, v: string)
    requires a != b && x != z && GoodKey(a) && GoodKey(b) && GoodName(x) && GoodName(z) && GoodValue(v)
    requires Fits(Header(a)) && Fits(Header(b)) && Fits(Assign(x, v)) && Fits(Assign(z, v))
    ensures Printable(ReopenConf(a, b, x, z, v)) && NoEmpty(ReopenConf(a, b, x, z, v).submaps)
  {
    var c := ReopenConf(a, b, x, z, v);
    assert x in c.submaps[a] && x in c.submaps[b];
    forall sk, nm | Live(c.submaps, sk, nm)
      ensures (nm == x || nm == z) && c.submaps[sk][nm] == v
    {
      assert sk == a || sk == b;
    }
    assert ShortConf(c);
    GoodPrintable(c);
  }

  lemma ReopenReads(a: string, b: string, x: string, z: string, v: string)
    requires a != "" && b != "" && a != b && x != z
    requires GoodKey(a) && GoodKey(b) && GoodName(x) && GoodName(z) && GoodValue(v)
    requires Fits(Header(a)) && Fits(Header(b)) && Fits(Assign(x, v)) && Fits(Assign(z, v))
    ensures Parse(Text(ReopenText(a, b, x, z, v))) == ReopenConf(a, b, x, z, v)
  {
    var events := ReopenText(a, b, x, z, v);
    ReopenLoads(a, b, x, z, v);
    forall e | e in events ensures Good(e) && Fits(e) && !e.Remark? {
      assert e in {Header(a), Header(b), Assign(x, v), Assign(z, v)};
    }
    ReadBack(events);
  }

  lemma ReopenLoses(a: string, b: string, x: string, z: string, v: string)
    requires a != "" && b != "" && a != b && x != z
    requires GoodKey(a) && GoodKey(b) && GoodName(x) && GoodName(z) && GoodValue(v)
    requires Fits(Header(a)) && Fits(Header(b)) && Fits(Assign(x, v)) && Fits(Assign(z, v))
    ensures var c := Parse(Text(ReopenText(a, b, x, z, v)));
            Live(c.submaps, a, z) && Parse(WriteText(c)).submaps != c.submaps
  {
    var c := ReopenConf(a, b, x, z, v);
    ReopenReads(a, b, x, z, v);
    ReopenUncovered(a, b, x, z, v);
    ReopenPrintable(a, b, x, z, v);
    assert Live(c.submaps, a, z);
    WriteParseIff(c);
  }
}
