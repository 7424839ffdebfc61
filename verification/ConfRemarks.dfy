// What becomes of remarks when a configuration is written and parsed again: none is lost, but the
// carriage returns at the end of one are.
module ConfRemarks {
  import opened ConfText
  import opened ConfReader
  import opened ConfWriter
  import opened ConfStore
  import opened ConfFile

  // --- how many characters the remarks have ---

  function RemarkSize(e: Event): nat { if e.Remark? then |e.text| else 0 }

  function Size(events: seq<Event>): nat {
    if events == [] then 0 else RemarkSize(events[0]) + Size(events[1..])
  }

  function LineSize(l: Line): nat { if l.Comment? then |l.text| else 0 }

  function OrderSize(order: seq<Line>): nat {
    if order == [] then 0 else LineSize(order[0]) + OrderSize(order[1..])
  }

  lemma {:induction false} OneMoreLine(order: seq<Line>, l: Line)
    ensures OrderSize(order + [l]) == OrderSize(order) + LineSize(l)
  {
    if order == [] {
      assert order + [l] == [l];
    } else {
      OneMoreLine(order[1..], l);
      assert (order + [l])[1..] == order[1..] + [l];
    }
  }

  lemma FirstSize(e: Event, more: seq<Event>)
    ensures Size([e] + more) == RemarkSize(e) + Size(more)
  {
    assert ([e] + more)[1..] == more;
  }

  // Every comment is written.
  lemma {:induction false} ShowSize(order: seq<Line>, sk: string, m: Submaps)
    ensures Size(Show(order, sk, m)) == OrderSize(order)
    decreases |order|
  {
    if order != [] {
      var shown, more := ShowLine(order[0], sk, m), Show(order[1..], NextSection(order[0], sk), m);
      ShowSize(order[1..], NextSection(order[0], sk), m);
      if shown == [] {
        assert shown + more == more;
      } else {
        assert shown == [shown[0]];
        FirstSize(shown[0], more);
      }
    }
  }

  lemma LoadOneSize(e: Event, sk: string, c: Conf)
    requires Keyed(c)
    ensures OrderSize(LoadOne(e, sk, c).order) == OrderSize(c.order) + RemarkSize(e)
  {
    match e {
      case Remark(t) => OneMoreLine(c.order, Comment(t));
      case Header(_) =>
      case Assign(nm, _) =>
        OneMoreLine(c.order, Key(sk));
        OneMoreLine(WithKey(c, sk), Var(nm));
    }
  }

  // Every remark becomes a comment.
  lemma {:induction false} LoadSize(events: seq<Event>, sk: string, c: Conf)
    requires Keyed(c)
    ensures OrderSize(Load(events, sk, c).order) == OrderSize(c.order) + Size(events)
    decreases |events|
  {
    if events != [] {
      LoadOneSize(events[0], sk, c);
      LoadSize(events[1..], SectionOf(events[0], sk), LoadOne(events[0], sk, c));
    }
  }

  lemma {:induction false} RereadSize(events: seq<Event>)
    requires forall e | e in events :: Good(e)
    ensures Size(RereadAll(events)) <= Size(events)
    ensures Size(RereadAll(events)) == Size(events) <==> NoCrEnds(events)
  {
    if events != [] {
      var e, more := events[0], events[1..];
      assert e in events;
      forall x | x in more ensures x in events {}
      RereadSize(more);
      FirstSize(Reread(e), RereadAll(more));
      if e.Remark? {
        WornPrefix(e.text);
        WornIff(e.text);
      }
      NoCrEndsFirst(e, more);
      assert events == [e] + more;
    }
  }

  lemma NoCrEndsFirst(e: Event, more: seq<Event>)
    ensures NoCrEnds([e] + more) <==> (e.Remark? ==> NoCrEnd(e.text)) && NoCrEnds(more)
  {
    assert forall x :: x in [e] + more <==> x == e || x in more;
  }

  // What is read back of a remark could have been read anyway.
  lemma WornRead(t: string)
    requires GoodRemark(t)
    ensures ReadRemark(Worn(t)) && |Worn(t)| <= |t|
  {
    var w := Worn(t);
    WornPrefix(t);
    var i, j := TrimMiddle(StripEol(t), BLANKS);
    PlainSlice(t, 0, |w|);
    if w != "" && w[0] != '#' { PrefixRemark(t, w); }
  }

  // --- with another letter for every carriage return ---

  function Mask(s: string): string {
    seq(|s|, i requires 0 <= i < |s| => if s[i] == '\r' then 'r' else s[i])
  }

  function Masked(e: Event): Event {
    match e
    case Remark(t) => Remark(Mask(t))
    case Header(k) => Header(Mask(k))
    case Assign(nm, v) => Assign(Mask(nm), Mask(v))
  }

  function MaskAll(events: seq<Event>): seq<Event> {
    if events == [] then [] else [Masked(events[0])] + MaskAll(events[1..])
  }

  lemma MaskConcat(a: string, b: string)
    ensures Mask(a + b) == Mask(a) + Mask(b)
  {
  }

  lemma {:induction false} MaskFolded(v: string)
    ensures Folded(Mask(v)) == Mask(Folded(v))
    decreases |v|
  {
    if |v| > FOLD {
      MaskFolded(v[FOLD..]);
      assert Mask(v)[..FOLD] == Mask(v[..FOLD]) && Mask(v)[FOLD..] == Mask(v[FOLD..]);
      MaskConcat(v[..FOLD] + "\\\n", Folded(v[FOLD..]));
      MaskConcat(v[..FOLD], "\\\n");
      assert Mask("\\\n") == "\\\n";
    }
  }

  lemma MaskThree(a: string, b: string, c: string)
    ensures Mask(a + b + c) == Mask(a) + Mask(b) + Mask(c)
  {
    MaskConcat(a + b, c);
    MaskConcat(a, b);
  }

  lemma MaskEvent(e: Event)
    requires Readable(e)
    ensures EventText(Masked(e)) == Mask(EventText(e))
  {
    match e {
      case Remark(t) =>
        MaskConcat(t, "\n");
        assert Mask("\n") == "\n";
      case Header(k) =>
        MaskThree("[", k, "]");
        MaskConcat("[" + k + "]", "\n");
        assert Mask("[") == "[" && Mask("]") == "]" && Mask("\n") == "\n";
      case Assign(nm, v) =>
        MaskThree(nm, " = ", Folded(v));
        MaskConcat(nm + " = " + Folded(v), "\n");
        MaskFolded(v);
        assert Mask(" = ") == " = " && Mask("\n") == "\n";
    }
  }

  lemma {:induction false} MaskText(events: seq<Event>)
    requires forall e | e in events :: Readable(e)
    ensures Text(MaskAll(events)) == Mask(Text(events))
  {
    if events != [] {
      var e, more := events[0], events[1..];
      assert e in events;
      forall x | x in more ensures x in events {}
      MaskText(more);
      MaskEvent(e);
      MaskConcat(EventText(e), Text(more));
      assert MaskAll(events)[1..] == MaskAll(more);
    }
  }

  // A remark stays one.
  lemma MaskRemark(t: string)
    requires t != "" && Classify(t) == Remark(t)
    ensures Classify(Mask(t)) == Remark(Mask(t))
  {
    var s, eq := Mask(t), IndexOf(t, '=');
    assert forall i | 0 <= i < |t| :: s[i] == '=' <==> t[i] == '=';
    if eq == |t| {
      IndexNone(s, '=');
    } else {
      IndexAt(s, '=', eq);
      var i, j := TrimMiddle(t[..eq], BLANKS);
      assert forall k | 0 <= k < eq :: t[..eq][k] in BLANKS;
      assert s[..eq] == t[..eq];
    }
  }

  lemma MaskGood(e: Event)
    requires Readable(e) && Fits(e)
    ensures Good(Masked(e)) && Fits(Masked(e)) && NoCrEnds([Masked(e)])
  {
    match e {
      case Remark(t) =>
        if t != "" && t[0] != '#' { MaskRemark(t); }
        NoCrEndGood(Mask(t));
      case Header(k) =>
      case Assign(nm, v) =>
    }
  }

  lemma {:induction false} MaskAllGood(events: seq<Event>)
    requires forall e | e in events :: Readable(e) && Fits(e)
    ensures forall e | e in MaskAll(events) :: Good(e) && Fits(e)
    ensures NoCrEnds(MaskAll(events))
  {
    if events != [] {
      var e, more := events[0], events[1..];
      assert e in events;
      forall x | x in more ensures x in events {}
      MaskAllGood(more);
      MaskGood(e);
      assert Masked(e) in [Masked(e)];
      NoCrEndsFirst(Masked(e), MaskAll(more));
    }
  }

  lemma {:induction false} MaskSize(events: seq<Event>)
    ensures Size(MaskAll(events)) == Size(events)
  {
    if events != [] {
      MaskSize(events[1..]);
      FirstSize(Masked(events[0]), MaskAll(events[1..]));
    }
  }

  // Events of the same text have remarks of the same size.
  lemma SameSize(a: seq<Event>, b: seq<Event>)
    requires forall e | e in a :: Readable(e) && Fits(e)
    requires forall e | e in b :: Readable(e) && Fits(e)
    requires Text(a) == Text(b)
    ensures Size(a) == Size(b)
  {
    MaskText(a);
    MaskText(b);
    MaskAllGood(a);
    MaskAllGood(b);
    ReadBack(MaskAll(a));
    ReadBack(MaskAll(b));
    MaskSize(a);
    MaskSize(b);
  }
}
