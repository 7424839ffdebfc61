// What a configuration text means: the value of a variable is what the last line that sets it in its
// section says.
module ConfMeaning {
  import opened ConfReader
  import opened ConfWriter
  import opened ConfSpelling
  import opened ConfStore
  import opened ConfAgreement
  import opened ConfFile
  import opened Wrappers

  // The section that the events end in.
  function LastHeader(events: seq<Event>): string {
    if events == [] then ""
    else
      var n := |events| - 1;
      if events[n].Header? then events[n].key else LastHeader(events[..n])
  }

  // What the last event that sets nm in section sk says. Values with a line end do not count.
  function Said(events: seq<Event>, sk: string, nm: string): Option<string> {
    if events == [] then None
    else
      var n := |events| - 1;
      var e := events[n];
      if e.Assign? && e.nm == nm && LastHeader(events[..n]) == sk && '\r' !in e.value && '\n' !in e.value
      then Some(e.value)
      else Said(events[..n], sk, nm)
  }

  lemma {:induction false} LoadLast(events: seq<Event>, e: Event, sk: string, c: Conf)
    requires Keyed(c)
    ensures Load(events + [e], sk, c) == LoadOne(e, LastOr(events, sk), Load(events, sk, c))
    decreases |events|
  {
    if events == [] {
      assert events + [e] == [e] && [e][1..] == [];
    } else {
      var rest, sk1 := events[1..], SectionOf(events[0], sk);
      assert (events + [e])[1..] == rest + [e];
      LoadLast(rest, e, sk1, LoadOne(events[0], sk, c));
      LastOrFirst(events, sk);
    }
  }

  // The section after the events, if they start in sk.
  function LastOr(events: seq<Event>, sk: string): string
    decreases |events|
  {
    if events == [] then sk
    else
      var n := |events| - 1;
      if events[n].Header? then events[n].key else LastOr(events[..n], sk)
  }

  lemma {:induction false} LastOrFirst(events: seq<Event>, sk: string)
    requires events != []
    ensures LastOr(events, sk) == LastOr(events[1..], SectionOf(events[0], sk))
    decreases |events|
  {
    var n := |events| - 1;
    if n > 0 {
      assert events[1..][..n - 1] == events[..n][1..];
      LastOrFirst(events[..n], sk);
    }
  }

  lemma {:induction false} LastOrGlobal(events: seq<Event>)
    ensures LastOr(events, "") == LastHeader(events)
  {
    if events != [] { LastOrGlobal(events[..|events| - 1]); }
  }

  lemma {:induction false} LoadSaid(events: seq<Event>, sk: string, nm: string)
    ensures var m := Load(events, "", EMPTY).submaps;
            if Live(m, sk, nm) then Said(events, sk, nm) == Some(m[sk][nm]) else Said(events, sk, nm) == None
    decreases |events|
  {
    if events != [] {
      var n := |events| - 1;
      var before, e := events[..n], events[n];
      LoadSaid(before, sk, nm);
      assert events == before + [e];
      LoadLast(before, e, "", EMPTY);
      LastOrGlobal(before);
      if e.Assign? && Settable(e.value) {
        SetLive(Load(before, "", EMPTY), e.nm, e.value, LastHeader(before), true);
        if (sk, nm) != (LastHeader(before), e.nm) {
          assert !(e.nm == nm && LastHeader(before) == sk);
        }
      }
    }
  }

  // The value that a text gives a variable.
  lemma ParsedValue(text: string, sk: string, nm: string)
    ensures var m := Parse(text).submaps;
            && (Live(m, sk, nm) <==> Said(Events(Open(text)), sk, nm).Some?)
            && (Live(m, sk, nm) ==> Said(Events(Open(text)), sk, nm) == Some(m[sk][nm]))
  {
    LoadSaid(Events(Open(text)), sk, nm);
  }

  // --- texts of one variable, however it is spelt ---

  lemma AssignParsed(b0: string, nm: string, b1: string, b2: string, v: string, b3: string, tail: string)
    requires GoodName(nm) && GoodValue(v) && Blank(b0) && Blank(b1) && Blank(b2) && Blank(b3)
    requires |Assignment(b0, nm, b1, b2, v, b3)| <= 2046
    ensures var c := Conf(map["" := map[nm := v]], [Var(nm)]);
            Parse(Assignment(b0, nm, b1, b2, v, b3) + "\n" + tail) == Load(Events(Open(tail)), "", c)
  {
    var e, more := Assign(nm, v), Events(Open(tail));
    AssignSpelt(b0, nm, b1, b2, v, b3, tail);
    assert ([e] + more)[1..] == more;
    assert LoadOne(e, "", EMPTY) == Conf(map["" := map[nm := v]], [] + [Var(nm)]);
    assert [] + [Var(nm)] == [Var(nm)];
  }

  lemma SectionParsed(a0: string, k: string, a1: string,
                      b0: string, nm: string, b1: string, b2: string, v: string, b3: string)
    requires GoodKey(k) && Blank(a0) && Blank(a1) && |a0 + "[" + k + "]" + a1| <= 2046
    requires GoodName(nm) && GoodValue(v) && Blank(b0) && Blank(b1) && Blank(b2) && Blank(b3)
    requires |Assignment(b0, nm, b1, b2, v, b3)| <= 2046
    ensures var text := a0 + "[" + k + "]" + a1 + "\n" + (Assignment(b0, nm, b1, b2, v, b3) + "\n");
            var m := Parse(text).submaps;
            && Live(m, k, nm) && m[k][nm] == v
            && forall s, n :: Live(m, s, n) ==> s == k && n == nm
  {
    var line := Assignment(b0, nm, b1, b2, v, b3);
    AssignSpelt(b0, nm, b1, b2, v, b3, "");
    AssignEnds(line, nm, v);
    HeaderSpelt(a0, k, a1, line + "\n");
    assert [Header(k)] + [Assign(nm, v)] == [Header(k), Assign(nm, v)];
    OnlyInSection(k, nm, v);
  }

  lemma AssignEnds(line: string, nm: string, v: string)
    requires Events(Open(line + "\n" + "")) == [Assign(nm, v)] + Events(Open(""))
    ensures Events(Open(line + "\n")) == [Assign(nm, v)]
  {
    NothingRead();
    assert line + "\n" + "" == line + "\n";
    assert [Assign(nm, v)] + [] == [Assign(nm, v)];
  }

  lemma OnlyInSection(k: string, nm: string, v: string)
    requires Settable(v)
    ensures var m := Load([Header(k), Assign(nm, v)], "", EMPTY).submaps;
            && Live(m, k, nm) && m[k][nm] == v
            && forall s, n :: Live(m, s, n) ==> s == k && n == nm
  {
    var events := [Header(k), Assign(nm, v)];
    assert events[1..] == [Assign(nm, v)] && events[1..][1..] == [];
    SetLive(EMPTY, nm, v, k, true);
    var m := Load(events, "", EMPTY).submaps;
    assert Load([Assign(nm, v)], k, EMPTY) == Load([], k, LoadOne(Assign(nm, v), k, EMPTY));
    assert m == LoadOne(Assign(nm, v), k, EMPTY).submaps;
    assert forall s, n :: !Live(EMPTY.submaps, s, n);
  }
}
