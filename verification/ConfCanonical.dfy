// When writing, parsing and writing again gives the same text.
module ConfCanonical {
  import opened ConfReader
  import opened ConfWriter
  import opened ConfStore
  import opened ConfAgreement
  import opened ConfFile
  import opened ConfRoundTrip
  import opened ConfStable
  import opened ConfRemarks

  // The presentation lines that events say.
  function LineOf(e: Event): Line {
    match e
    case Remark(t) => Comment(t)
    case Header(k) => Key(k)
    case Assign(nm, _) => Var(nm)
  }

  function LinesOf(events: seq<Event>): seq<Line> {
    if events == [] then [] else [LineOf(events[0])] + LinesOf(events[1..])
  }

  // No section twice, no variable twice in a section, and no remark between a section line and its
  // first variable.
  ghost predicate Canonical(events: seq<Event>) {
    && Settled(events)
    && KeysOnce(LinesOf(events))
    && Distinct(Pairs(LinesOf(events), ""))
  }

  // --- what a configuration shows ---

  ghost function LivePairs(pairs: seq<(string, string)>, m: Submaps): seq<(string, string)> {
    if pairs == [] then []
    else (if Live(m, pairs[0].0, pairs[0].1) then [pairs[0]] else []) + LivePairs(pairs[1..], m)
  }

  lemma LinesHead(e: Event, more: seq<Event>, at: string)
    ensures LinesOf([e] + more) == [LineOf(e)] + LinesOf(more)
    ensures Pairs(LinesOf([e] + more), at)
         == (if e.Assign? then [(at, e.nm)] else []) + Pairs(LinesOf(more), SectionOf(e, at))
  {
    assert ([e] + more)[1..] == more;
    var lines := [LineOf(e)] + LinesOf(more);
    assert lines[1..] == LinesOf(more);
    FirstPair(lines, at);
  }

  // The variables that are written are the live ones among those that have a line, in order.
  lemma {:induction false} ShownPairs(order: seq<Line>, sk: string, m: Submaps, at: string)
    requires sk in m ==> at == sk
    ensures Pairs(LinesOf(Show(order, sk, m)), at) == LivePairs(Pairs(order, sk), m)
    decreases |order|
  {
    if order != [] {
      var rest, sk1 := order[1..], NextSection(order[0], sk);
      var shown, more := ShowLine(order[0], sk, m), Show(rest, sk1, m);
      FirstPair(order, sk);
      if shown == [] {
        assert shown + more == more;
        ShownPairs(rest, sk1, m, at);
        if order[0].Var? {
          assert Pairs(order, sk)[1..] == Pairs(rest, sk1);
        } else {
          assert [] + Pairs(rest, sk1) == Pairs(rest, sk1);
        }
      } else {
        ShownFirst(order, sk, m, at);
      }
    }
  }

  lemma ShownFirst(order: seq<Line>, sk: string, m: Submaps, at: string)
    requires order != [] && ShowLine(order[0], sk, m) != [] && (sk in m ==> at == sk)
    ensures Pairs(LinesOf(Show(order, sk, m)), at) == LivePairs(Pairs(order, sk), m)
    decreases |order|, 0
  {
    var rest, sk1 := order[1..], NextSection(order[0], sk);
    var e, more := ShowLine(order[0], sk, m)[0], Show(rest, sk1, m);
    assert Show(order, sk, m) == [e] + more;
    FirstPair(order, sk);
    LinesHead(e, more, at);
    ShownPairs(rest, sk1, m, SectionOf(e, at));
    if order[0].Var? {
      assert Pairs(order, sk)[1..] == Pairs(rest, sk1);
    } else {
      assert [] + Pairs(rest, sk1) == Pairs(rest, sk1);
    }
  }

  lemma {:induction false} LiveDistinct(pairs: seq<(string, string)>, m: Submaps)
    requires Distinct(pairs)
    ensures Distinct(LivePairs(pairs, m))
    ensures forall p :: p in LivePairs(pairs, m) <==> p in pairs && Live(m, p.0, p.1)
  {
    if pairs != [] {
      var rest := pairs[1..];
      assert forall j | 0 <= j < |rest| :: rest[j] == pairs[j + 1];
      LiveDistinct(rest, m);
      assert pairs[0] !in rest;
    }
  }

  // What an agreeing configuration writes has each live variable once, and no other.
  lemma WrittenOnce(c: Conf, sk: string, nm: string)
    requires Agree(c)
    ensures multiset(Pairs(LinesOf(Written(c)), ""))[(sk, nm)] == if Live(c.submaps, sk, nm) then 1 else 0
  {
    ShownPairs(c.order, "", c.submaps, "");
    LiveDistinct(Pairs(c.order, ""), c.submaps);
    var shown := LivePairs(Pairs(c.order, ""), c.submaps);
    if Live(c.submaps, sk, nm) {
      Once(shown, (sk, nm));
    } else {
      assert (sk, nm) !in shown;
    }
  }

  lemma KeysTail(order: seq<Line>)
    requires order != [] && KeysOnce(order)
    ensures KeysOnce(order[1..]) && order[0] != Key("") && (order[0].Key? ==> order[0] !in order[1..])
  {
    assert forall j | 0 <= j < |order| - 1 :: order[1..][j] == order[j + 1];
    assert order[0] in order;
  }

  lemma KeysCons(l: Line, rest: seq<Line>)
    requires KeysOnce(rest) && l != Key("") && (l.Key? ==> l !in rest)
    ensures KeysOnce([l] + rest)
  {
    var all := [l] + rest;
    assert all[1..] == rest;
    forall i, j | 0 <= i < j < |all| && all[i].Key? ensures all[i] != all[j] {
      assert all[j] == rest[j - 1];
      if i > 0 { assert all[i] == rest[i - 1]; }
    }
  }

  lemma {:induction false} ShownKeys(order: seq<Line>, sk: string, m: Submaps)
    requires KeysOnce(order)
    ensures KeysOnce(LinesOf(Show(order, sk, m)))
    ensures forall l | l in LinesOf(Show(order, sk, m)) :: l in order
    decreases |order|
  {
    if order != [] {
      var rest, sk1 := order[1..], NextSection(order[0], sk);
      var shown, more := ShowLine(order[0], sk, m), Show(rest, sk1, m);
      assert order == [order[0]] + rest;
      KeysTail(order);
      ShownKeys(rest, sk1, m);
      if shown == [] {
        assert shown + more == more;
      } else {
        LinesHead(shown[0], more, "");
        assert shown == [shown[0]] && LineOf(shown[0]) == order[0];
        KeysCons(order[0], LinesOf(more));
      }
    }
  }

  // For an agreeing configuration only the remarks matter.
  lemma AgreeCanonical(c: Conf)
    requires Agree(c)
    ensures Canonical(Written(c)) <==> Settled(Written(c))
  {
    ShownPairs(c.order, "", c.submaps, "");
    LiveDistinct(Pairs(c.order, ""), c.submaps);
    ShownKeys(c.order, "", c.submaps);
  }

  // --- loading canonical events ---

  ghost predicate AllSettable(events: seq<Event>) {
    forall e | e in events && e.Assign? :: Settable(e.value)
  }

  lemma SettableRest(events: seq<Event>)
    requires events != [] && AllSettable(events)
    ensures AllSettable(events[1..]) && (events[0].Assign? ==> Settable(events[0].value))
  {
    assert events[0] in events;
    forall e | e in events[1..] ensures e in events {}
  }

  lemma PairsRest(events: seq<Event>, at: string)
    requires events != []
    ensures Pairs(LinesOf(events), at)
         == (if events[0].Assign? then [(at, events[0].nm)] else [])
            + Pairs(LinesOf(events[1..]), SectionOf(events[0], at))
  {
    LinesHead(events[0], events[1..], at);
    assert events == [events[0]] + events[1..];
  }

  // Loading makes live exactly the variables that are set, and leaves the others as they were.
  lemma {:induction false} LoadLive(events: seq<Event>, at: string, acc: Conf, k: string, n: string)
    requires Keyed(acc) && AllSettable(events)
    ensures var m, set_ := Load(events, at, acc).submaps, (k, n) in Pairs(LinesOf(events), at);
            && Live(m, k, n) == (set_ || Live(acc.submaps, k, n))
            && (!set_ && Live(acc.submaps, k, n) ==> m[k][n] == acc.submaps[k][n])
    decreases |events|
  {
    if events != [] {
      var e := events[0];
      SettableRest(events);
      PairsRest(events, at);
      LoadLive(events[1..], SectionOf(e, at), LoadOne(e, at, acc), k, n);
      if e.Assign? {
        SetLive(acc, e.nm, e.value, at, true);
        assert (k, n) != (at, e.nm) ==> Live(LoadOne(e, at, acc).submaps, k, n) == Live(acc.submaps, k, n);
      }
    }
  }

  // m has the values that the events set, and the sections they name.
  ghost predicate Valued(events: seq<Event>, at: string, m: Submaps) {
    events != [] ==>
      && (events[0].Assign? ==> Live(m, at, events[0].nm) && m[at][events[0].nm] == events[0].value)
      && (events[0].Header? ==> events[0].key in m)
      && Valued(events[1..], SectionOf(events[0], at), m)
  }

  lemma {:induction false} LoadValued(events: seq<Event>, at: string, acc: Conf)
    requires Keyed(acc) && AllSettable(events) && Settled(events) && Distinct(Pairs(LinesOf(events), at))
    ensures Valued(events, at, Load(events, at, acc).submaps)
    decreases |events|
  {
    if events != [] {
      var e, rest, sk := events[0], events[1..], SectionOf(events[0], at);
      SettableRest(events);
      PairsRest(events, at);
      var pairs, more := Pairs(LinesOf(events), at), Pairs(LinesOf(rest), sk);
      var d := |pairs| - |more|;
      assert forall i | 0 <= i < |more| :: more[i] == pairs[i + d];
      assert forall i | 0 <= i < |rest| :: rest[i] == events[i + 1];
      LoadValued(rest, sk, LoadOne(e, at, acc));
      if e.Assign? {
        SetLive(acc, e.nm, e.value, at, true);
        assert pairs[0] == (at, e.nm) && (at, e.nm) !in more;
        LoadLive(rest, sk, LoadOne(e, at, acc), at, e.nm);
      } else if e.Header? {
        assert events[1].Assign? && rest[0] == events[1];
      }
    }
  }

  lemma {:induction false} ValuedShows(events: seq<Event>, at: string, m: Submaps)
    requires Valued(events, at, m)
    ensures Show(LinesOf(events), at, m) == events
  {
    if events != [] {
      var lines := LinesOf(events);
      assert lines[0] == LineOf(events[0]) && lines[1..] == LinesOf(events[1..]);
      ValuedShows(events[1..], SectionOf(events[0], at), m);
      assert events == [events[0]] + events[1..];
    }
  }

  // A section with a variable line has a section line before it.
  lemma PairKeyed(order: seq<Line>, sk: string, nm: string)
    requires (sk, nm) in Pairs(order, "") && sk != ""
    ensures Key(sk) in order
  {
    PairsAt(order, "", sk, nm);
    var i :| 0 <= i < |order| && order[i] == Var(nm) && SectionAfter(order[..i], "") == sk;
    var k := SectionFrom(order, i);
    assert order[k - 1] in order;
  }

  // Canonical events are what some agreeing configuration writes.
  lemma CanonicalConf(events: seq<Event>)
    requires Canonical(events) && AllSettable(events)
    ensures var c := Conf(Load(events, "", EMPTY).submaps, LinesOf(events));
            Agree(c) && Written(c) == events
  {
    var m, order := Load(events, "", EMPTY).submaps, LinesOf(events);
    LoadNoEmpty(events, "", EMPTY);
    forall k, n ensures Live(m, k, n) <==> (k, n) in Pairs(order, "") {
      LoadLive(events, "", EMPTY, k, n);
    }
    forall sk | sk in m && sk != "" ensures Key(sk) in order {
      assert m[sk].Keys != {};
      var n :| n in m[sk];
      assert Live(m, sk, n);
      PairKeyed(order, sk, n);
    }
    LoadValued(events, "", EMPTY);
    ValuedShows(events, "", m);
  }

  // --- what loading can show ---

  // Whatever c says is said by the events.
  ghost predicate SaidBy(c: Conf, events: seq<Event>) {
    && (forall k, n | Live(c.submaps, k, n) :: Assign(n, c.submaps[k][n]) in events)
    && (forall k | Key(k) in c.order :: Header(k) in events)
    && (forall t | Comment(t) in c.order :: Remark(t) in events)
  }

  lemma SaidOne(e: Event, at: string, acc: Conf, all: seq<Event>)
    requires Keyed(acc) && SaidBy(acc, all) && e in all && (at != "" ==> Header(at) in all)
    ensures SaidBy(LoadOne(e, at, acc), all)
  {
    if e.Assign? && Settable(e.value) {
      var c := LoadOne(e, at, acc);
      SetLive(acc, e.nm, e.value, at, true);
      forall k, n | Live(c.submaps, k, n) ensures Assign(n, c.submaps[k][n]) in all {
        if (k, n) != (at, e.nm) { assert Live(acc.submaps, k, n); }
      }
    }
  }

  lemma {:induction false} LoadSaid(events: seq<Event>, at: string, acc: Conf, all: seq<Event>)
    requires Keyed(acc) && SaidBy(acc, all) && (at != "" ==> Header(at) in all)
    requires forall e | e in events :: e in all
    ensures SaidBy(Load(events, at, acc), all)
    decreases |events|
  {
    if events != [] {
      assert events[0] in events;
      forall e | e in events[1..] ensures e in all {
        assert e in events;
      }
      SaidOne(events[0], at, acc, all);
      LoadSaid(events[1..], SectionOf(events[0], at), LoadOne(events[0], at, acc), all);
    }
  }

  lemma {:induction false} ShownSaid(c: Conf, order: seq<Line>, sk: string, all: seq<Event>)
    requires SaidBy(c, all) && forall l | l in order :: l in c.order
    ensures forall e | e in Show(order, sk, c.submaps) :: e in all
    decreases |order|
  {
    if order != [] {
      assert order[0] in order;
      forall l | l in order[1..] ensures l in c.order {
        assert l in order;
      }
      ShownSaid(c, order[1..], NextSection(order[0], sk), all);
      if order[0].Var? && Live(c.submaps, sk, order[0].nm) {
        assert Assign(order[0].nm, c.submaps[sk][order[0].nm]) in all;
      }
    }
  }

  lemma LoadPrintable(events: seq<Event>)
    requires forall e | e in events :: Good(e) && Fits(e)
    ensures Printable(Load(events, "", EMPTY)) && NoEmpty(Load(events, "", EMPTY).submaps)
  {
    var c := Load(events, "", EMPTY);
    LoadSaid(events, "", EMPTY, events);
    ShownSaid(c, c.order, "", events);
    LoadNoEmpty(events, "", EMPTY);
  }

  // --- the fixed points ---

  // Loading events and writing them again gives the same events if and only if they are canonical.
  lemma FixedIff(events: seq<Event>)
    requires forall e | e in events :: Good(e) && Fits(e)
    ensures Written(Load(events, "", EMPTY)) == events <==> Canonical(events)
  {
    var r := Load(events, "", EMPTY);
    if Canonical(events) {
      var c := Conf(r.submaps, LinesOf(events));
      CanonicalConf(events);
      SettledFixed(c);
    }
    if Written(r) == events {
      LoadPrintable(events);
      LoadBackIff(r);
      assert Pairs([], "") == [];
      LoadCoveredIff(events, "", EMPTY);
      LoadSettled(events);
      AgreeCanonical(r);
    }
  }

  lemma {:induction false} RereadKinds(events: seq<Event>)
    requires forall e | e in events :: Good(e) && Fits(e)
    ensures forall e | e in RereadAll(events) :: Readable(e) && Fits(e)
  {
    if events != [] {
      assert events[0] in events;
      forall e | e in events[1..] ensures e in events {}
      RereadKinds(events[1..]);
      if events[0].Remark? { WornRead(events[0].text); }
    }
  }

  lemma WrittenSaid(events: seq<Event>)
    ensures forall e | e in Written(Load(events, "", EMPTY)) :: e in events
  {
    var r := Load(events, "", EMPTY);
    LoadSaid(events, "", EMPTY, events);
    ShownSaid(r, r.order, "", events);
  }

  // A text that comes out the same has lost nothing of its remarks.
  lemma StableNoCr(events: seq<Event>)
    requires forall e | e in events :: Good(e) && Fits(e)
    requires Text(Written(Load(RereadAll(events), "", EMPTY))) == Text(events)
    ensures NoCrEnds(events)
  {
    var again := RereadAll(events);
    var r := Load(again, "", EMPTY);
    RereadKinds(events);
    WrittenSaid(again);
    SameSize(Written(r), events);
    ShowSize(r.order, "", r.submaps);
    LoadSize(again, "", EMPTY);
    RereadSize(events);
  }

  // A configuration is written as the same text again after being parsed back if and only if what
  // it writes is canonical and no remark ends in a carriage return.
  lemma RewriteStableIff(c: Conf)
    requires Printable(c)
    ensures WriteText(Parse(WriteText(c))) == WriteText(c) <==> Canonical(Written(c)) && NoCrEnds(Written(c))
  {
    var events := Written(c);
    ReadAgain(events);
    RereadIff(events);
    if NoCrEnds(events) {
      WrittenSaid(events);
      ReadBack(events);
      ReadBack(Written(Load(events, "", EMPTY)));
      FixedIff(events);
    } else if WriteText(Parse(WriteText(c))) == WriteText(c) {
      StableNoCr(events);
    }
  }

  // An agreeing one, if and only if moreover no remark stands between a section line and its first
  // variable.
  lemma TextStable(c: Conf)
    requires Agree(c) && Printable(c)
    ensures WriteText(Parse(WriteText(c))) == WriteText(c) <==> Settled(Written(c)) && NoCrEnds(Written(c))
  {
    RewriteStableIff(c);
    AgreeCanonical(c);
  }

  lemma {:induction false} CommentFreeShown(order: seq<Line>, sk: string, m: Submaps)
    requires forall l | l in order :: !l.Comment?
    ensures forall e | e in Show(order, sk, m) :: !e.Remark?
    decreases |order|
  {
    if order != [] {
      assert order[0] in order;
      forall l | l in order[1..] ensures l in order {}
      CommentFreeShown(order[1..], NextSection(order[0], sk), m);
    }
  }

  // The printer and the parser agree on the text of every configuration without comments.
  lemma CommentFreeStable(c: Conf)
    requires Agree(c) && Printable(c) && forall l | l in c.order :: !l.Comment?
    ensures WriteText(Parse(WriteText(c))) == WriteText(c)
  {
    CommentFreeSettled(c);
    CommentFreeShown(c.order, "", c.submaps);
    TextStable(c);
  }

  // Rewriting a parsed text gives a text that further rewriting does not change, if and only if the
  // first rewriting gives canonical lines and no remark that ends in a carriage return.
  lemma ParsedStableIff(text: string)
    requires NoDangling(Events(Open(text))) && ShortConf(Parse(text))
    ensures var c := Parse(text);
            WriteText(Parse(WriteText(c))) == WriteText(c) <==> Canonical(Written(c)) && NoCrEnds(Written(c))
  {
    ParsedPrintable(text);
    RewriteStableIff(Parse(text));
  }

  // If the text reopens no section, if and only if no comment of it ends so.
  lemma ParsedStable(text: string)
    requires NoDangling(Events(Open(text))) && ShortConf(Parse(text))
    requires !Reopened(Events(Open(text)), "", [])
    ensures var once := WriteText(Parse(text)); WriteText(Parse(once)) == once <==> NoCrEnds(Events(Open(text)))
  {
    var events := Events(Open(text));
    ReopensIff(events, "", EMPTY, []);
    ParsedStableIff(text);
    LoadSettled(events);
    AgreeCanonical(Parse(text));
    WrittenSaid(events);
    RemarksKept(events, "", EMPTY);
    forall t | Remark(t) in events ensures Remark(t) in Written(Parse(text)) {
      CommentShown(Parse(text).order, "", Parse(text).submaps, t);
    }
  }

  // No remark is lost.
  lemma {:induction false} RemarksKept(events: seq<Event>, at: string, acc: Conf)
    requires Keyed(acc)
    ensures forall l | l in acc.order :: l in Load(events, at, acc).order
    ensures forall t | Remark(t) in events :: Comment(t) in Load(events, at, acc).order
    decreases |events|
  {
    if events != [] {
      RemarksKept(events[1..], SectionOf(events[0], at), LoadOne(events[0], at, acc));
      assert forall e | e in events :: e == events[0] || e in events[1..];
    }
  }

  lemma {:induction false} CommentShown(order: seq<Line>, sk: string, m: Submaps, t: string)
    requires Comment(t) in order
    ensures Remark(t) in Show(order, sk, m)
    decreases |order|
  {
    if order[0] != Comment(t) { CommentShown(order[1..], NextSection(order[0], sk), m, t); }
  }

  // A comment after a section line goes above it.
  lemma CommentMoves(k: string, t: string, nm: string, v: string)
    requires k != "" && Good(Header(k)) && Good(Remark(t)) && Good(Assign(nm, v))
    requires Fits(Header(k)) && Fits(Remark(t)) && Fits(Assign(nm, v))
    ensures var c := Commented(k, t, nm, v);
            && Agree(c) && Printable(c) && Written(c) == [Header(k), Remark(t), Assign(nm, v)]
            && Written(Parse(WriteText(c))) == [Remark(Worn(t)), Header(k), Assign(nm, v)]
            && WriteText(Parse(WriteText(c))) != WriteText(c)
  {
    var c := Commented(k, t, nm, v);
    var events := [Header(k), Remark(t), Assign(nm, v)];
    ShowCommented(k, t, nm, v);
    CommentedAgrees(k, t, nm, v);
    TextStable(c);
    assert events[0].Header? && !events[1].Assign?;
    ReadAgain(events);
    RereadCommented(k, t, nm, v);
    LoadCommented(k, Worn(t), nm, v);
  }

  lemma RereadCommented(k: string, t: string, nm: string, v: string)
    ensures RereadAll([Header(k), Remark(t), Assign(nm, v)]) == [Header(k), Remark(Worn(t)), Assign(nm, v)]
  {
    var three, two, one := [Header(k), Remark(t), Assign(nm, v)], [Remark(t), Assign(nm, v)], [Assign(nm, v)];
    assert three[1..] == two && two[1..] == one && one[1..] == [];
    assert RereadAll(one) == [Assign(nm, v)] + RereadAll([]);
    assert RereadAll(two) == [Remark(Worn(t))] + RereadAll(one);
  }

  function Commented(k: string, t: string, nm: string, v: string): Conf {
    Conf(map[k := map[nm := v]], [Key(k), Comment(t), Var(nm)])
  }

  lemma ShowCommented(k: string, t: string, nm: string, v: string)
    ensures Written(Commented(k, t, nm, v)) == [Header(k), Remark(t), Assign(nm, v)]
    ensures Pairs([Key(k), Comment(t), Var(nm)], "") == [(k, nm)]
  {
    var m := Commented(k, t, nm, v).submaps;
    var three, two, one := [Key(k), Comment(t), Var(nm)], [Comment(t), Var(nm)], [Var(nm)];
    assert three[1..] == two && two[1..] == one && one[1..] == [];
    assert Show(one, k, m) == [Assign(nm, v)] + Show([], k, m);
    assert Show(two, k, m) == [Remark(t)] + Show(one, k, m);
    FirstPair(three, "");
    FirstPair(two, k);
    FirstPair(one, k);
  }

  lemma CommentedAgrees(k: string, t: string, nm: string, v: string)
    requires k != ""
    ensures Agree(Commented(k, t, nm, v))
  {
    var c := Commented(k, t, nm, v);
    ShowCommented(k, t, nm, v);
    assert nm in c.submaps[k];
    assert c.order[0] == Key(k);
    forall sk, n | Live(c.submaps, sk, n) ensures (sk, n) in Pairs(c.order, "") {
      assert sk == k && n == nm && Pairs(c.order, "")[0] == (k, nm);
    }
  }

  lemma LoadCommented(k: string, t: string, nm: string, v: string)
    requires k != "" && Settable(v)
    ensures Written(Load([Header(k), Remark(t), Assign(nm, v)], "", EMPTY)) == [Remark(t), Header(k), Assign(nm, v)]
  {
    var events, m := [Header(k), Remark(t), Assign(nm, v)], map[k := map[nm := v]];
    var acc := Conf(map[], [Comment(t)]);
    assert events[1..] == [Remark(t), Assign(nm, v)] && events[1..][1..] == [Assign(nm, v)];
    assert EMPTY.order + [Comment(t)] == [Comment(t)];
    SetNewSection(acc, nm, v, k);
    var r := Conf(m, [Comment(t), Key(k), Var(nm)]);
    assert acc.order + [Key(k), Var(nm)] == r.order && acc.submaps[k := map[nm := v]] == m;
    LoadLast(Assign(nm, v), k, acc);
    var three, two, one := r.order, [Key(k), Var(nm)], [Var(nm)];
    assert three[1..] == two && two[1..] == one && one[1..] == [];
    assert Show(one, k, m) == [Assign(nm, v)] + Show([], k, m);
    assert Show(two, "", m) == [Header(k)] + Show(one, k, m);
  }

  lemma LoadLast(e: Event, at: string, acc: Conf)
    requires Keyed(acc)
    ensures Load([e], at, acc) == LoadOne(e, at, acc)
  {
    assert [e][1..] == [];
  }
}
