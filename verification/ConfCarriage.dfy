// A carriage return inside a line, where the parser does not drop it.
module ConfCarriage {
  import opened ConfText
  import opened ConfReader
  import opened ConfWriter
  import opened ConfStore
  import opened ConfFile
  import opened ConfRoundTrip

  // A comment that ends in a backslash, a carriage return and a blank, before a variable: the
  // blank keeps the carriage return from being dropped when the text is parsed.
  function CrText(f: string, nm: string, v: string): string {
    (f + "\\\r ") + "\n" + EventText(Assign(nm, v))
  }

  ghost predicate GoodComment(f: string) {
    && f != "" && Plain(f) && '=' !in f
    && f[0] !in BLANKS && f[0] != '#' && f[0] != '['
  }

  lemma CrTrim(f: string)
    requires GoodComment(f)
    ensures Trim(f + "\\\r ", BLANKS) == f + "\\\r" && Classify(f + "\\\r") == Remark(f + "\\\r")
  {
    var l, t := f + "\\\r ", f + "\\\r";
    TrimTail(l, BLANKS, |t|);
    assert l[..|t|] == t;
    TrimNothing(t, BLANKS);
    IndexNone(t, '=');
  }

  lemma CrComment(f: string, tail: string)
    requires GoodComment(f) && |f| + 3 <= LL - 2
    ensures ReadLine(Open((f + "\\\r ") + "\n" + tail)) == Turn([Remark(f + "\\\r")], Open(tail), false)
  {
    var l := f + "\\\r ";
    PlainConcat(f, "\\\r ");
    ReadWritten(Open(l + "\n" + tail), l, tail);
    CrTrim(f);
  }

  lemma CrRead(f: string, nm: string, v: string)
    requires GoodComment(f) && |f| + 3 <= LL - 2 && Good(Assign(nm, v)) && Fits(Assign(nm, v))
    ensures Events(Open(CrText(f, nm, v))) == [Remark(f + "\\\r"), Assign(nm, v)]
  {
    var tail := EventText(Assign(nm, v));
    CrComment(f, tail);
    assert tail + "" == tail;
    AssignRead(nm, v, "");
    NothingRead();
    assert [Assign(nm, v)] + [] == [Assign(nm, v)];
  }

  lemma CrTurn(f: string, tail: string)
    requires GoodComment(f) && |f| + 3 <= LL - 2
    ensures ReadLine(Open((f + "\\\r") + "\n" + tail)) == Turn([], Reader(tail, true, true, f), false)
  {
    var t := f + "\\\r";
    PlainConcat(f, "\\\r");
    ReadPlain(t, tail);
    assert t[..|t| - 1] == f + "\\";
    StripNothing(f + "\\");
    TrimNothing(f + "\\", BLANKS);
    assert (f + "\\")[..|f|] == f;
  }

  // Written without the blank, the comment continues into the variable.
  lemma CrJoins(f: string, nm: string, v: string)
    requires GoodComment(f) && |f| + 3 <= LL - 2 && Good(Assign(nm, v)) && Fits(Assign(nm, v))
    ensures Events(Open((f + "\\\r") + "\n" + EventText(Assign(nm, v)))) == [Assign(f + nm, v)]
  {
    var tail := EventText(Assign(nm, v));
    var r := Open((f + "\\\r") + "\n" + tail);
    CrTurn(f, tail);
    JoinedRead(f, nm, v);
    assert Events(r) == [] + Events(Reader(tail, true, true, f));
  }

  lemma JoinedRead(f: string, nm: string, v: string)
    requires GoodComment(f) && Good(Assign(nm, v)) && Fits(Assign(nm, v))
    ensures Events(Reader(EventText(Assign(nm, v)), true, true, f)) == [Assign(f + nm, v)]
  {
    var head := nm + " = ";
    var r := Reader(EventText(Assign(nm, v)), true, true, f);
    PlainConcat(nm, " = ");
    PlainConcat(f, nm);
    assert r.rest == head + Folded(v) + "\n" + "";
    assert f + (head + v) == (f + nm) + " = " + v;
    assert (f + head)[0] == (f + nm)[0];
    Pieces(r, f, head, v, "", f + nm, v);
    NothingRead();
    assert [Assign(f + nm, v)] + [] == [Assign(f + nm, v)];
  }

  lemma CrLoads(t: string, nm: string, v: string)
    requires Settable(v)
    ensures var events, c := [Remark(t), Assign(nm, v)], Conf(map["" := map[nm := v]], [Comment(t), Var(nm)]);
            && Load(events, "", EMPTY) == c && Written(c) == events
            && !Reopens(events, "", EMPTY)
  {
    var e, acc := Assign(nm, v), Conf(map[], [Comment(t)]);
    var events, c := [Remark(t), e], Conf(map["" := map[nm := v]], [Comment(t), Var(nm)]);
    assert events[1..] == [e];
    assert EMPTY.order + [Comment(t)] == [Comment(t)];
    assert LoadOne(Remark(t), "", EMPTY) == acc;
    assert acc.order + [Var(nm)] == c.order && PutValue(acc.submaps, "", nm, v) == c.submaps;
    assert LoadOne(e, "", acc) == c;
    LoadOnly(e, acc);
    var two, one := c.order, [Var(nm)];
    assert two[1..] == one && one[1..] == [];
    assert Show(one, "", c.submaps) == [e] + Show([], "", c.submaps);
  }

  lemma LoadOnly(e: Event, acc: Conf)
    requires Keyed(acc) && acc.submaps == map[] && |acc.order| == 1 && acc.order[0].Comment?
    ensures Load([e], "", acc) == LoadOne(e, "", acc) && !Reopens([e], "", acc)
  {
    assert [e][1..] == [] && acc.order[..0] == [];
  }

  // So rewriting such a file loses the variable, though no section is reopened.
  lemma CrLoses(f: string, nm: string, v: string)
    requires GoodComment(f) && |f| + 3 <= LL - 2 && Good(Assign(nm, v)) && Fits(Assign(nm, v))
    ensures var text := CrText(f, nm, v);
            && !Reopened(Events(Open(text)), "", [])
            && Live(Parse(text).submaps, "", nm)
            && !Live(Parse(WriteText(Parse(text))).submaps, "", nm)
  {
    var t := f + "\\\r";
    CrRead(f, nm, v);
    CrLoads(t, nm, v);
    ReopensIff([Remark(t), Assign(nm, v)], "", EMPTY, []);
    CrWritten(t, Assign(nm, v));
    CrJoins(f, nm, v);
    OnlyOne(f + nm, v);
    assert |f + nm| != |nm|;
  }

  lemma OnlyOne(nm: string, v: string)
    ensures forall n :: Live(Load([Assign(nm, v)], "", EMPTY).submaps, "", n) ==> n == nm
  {
    assert [Assign(nm, v)][1..] == [];
  }

  lemma CrWritten(t: string, e: Event)
    ensures Text([Remark(t), e]) == t + "\n" + EventText(e)
  {
    assert [Remark(t), e][1..] == [e] && [e][1..] == [];
    assert Text([e]) == EventText(e) + "" == EventText(e);
  }
}
