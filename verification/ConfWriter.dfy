// Writing configuration text, and why the reader gets the same events back.
module ConfWriter {
  import opened Sequences
  import opened ConfText
  import opened ConfReader

  const FOLD := 60

  // A value cut into pieces of FOLD characters by continuation marks.
  function Folded(v: string): string {
    if |v| <= FOLD then v else v[..FOLD] + "\\\n" + Folded(v[FOLD..])
  }

  function EventText(e: Event): string {
    match e
    case Remark(t) => t + "\n"
    case Header(k) => "[" + k + "]" + "\n"
    case Assign(nm, v) => if nm == "" then "\n[" + v + "]\n" else nm + " = " + Folded(v) + "\n"
  }

  function Text(events: seq<Event>): string {
    if events == [] then "" else EventText(events[0]) + Text(events[1..])
  }

  // What is left to print at pos.
  function FoldedFrom(v: string, pos: nat): string
    requires pos <= |v|
  {
    if pos == |v| then "" else Folded(v[pos..])
  }

  lemma FoldStep(v: string, pos: nat, len: nat, done: string)
    requires pos < |v| && len == if FOLD < |v| - pos then FOLD else |v| - pos
    ensures var done1 := done + v[pos..pos + len];
            done + FoldedFrom(v, pos) == (if pos + len < |v| then done1 + "\\\n" else done1) + FoldedFrom(v, pos + len)
  {
    var u := v[pos..];
    assert u[..len] == v[pos..pos + len];
    assert u[len..] == v[pos + len..];
    if |u| <= FOLD {
      assert u == v[pos..pos + len] + ("" + "");
    } else {
      assert Folded(u) == u[..FOLD] + ("\\\n" + Folded(u[FOLD..]));
    }
  }

  // varprinter.
  method VarPrinter(nm: string, value: string) returns (out: string)
    ensures out == EventText(Assign(nm, value))
  {
    if nm == "" {
      return "\n[" + value + "]\n";
    }
    var value1 := "";
    if |value| < FOLD {
      value1 := value;
    } else {
      var pos := 0;
      while pos < |value|
        invariant pos <= |value|
        invariant value1 + FoldedFrom(value, pos) == Folded(value)
      {
        var len := if FOLD < |value| - pos then FOLD else |value| - pos;
        FoldStep(value, pos, len, value1);
        value1 := value1 + value[pos..pos + len];
        pos := pos + len;
        if pos < |value| {
          value1 := value1 + "\\\n";
        }
      }
      assert FoldedFrom(value, |value|) == "";
    }
    out := nm + " = " + value1 + "\n";
  }

  // Where the characters of a value stand once it is folded, and where the marks.
  lemma {:induction false} FoldedAt(v: string, k: nat)
    requires k < |v|
    ensures |Folded(v)| == |v| + (|v| - 1) / 60 * 2
    ensures k + k / 60 * 2 < |Folded(v)| && Folded(v)[k + k / 60 * 2] == v[k]
    ensures k > 0 && k % 60 == 0 ==> Folded(v)[k + k / 60 * 2 - 2..k + k / 60 * 2] == "\\\n"
    decreases |v|
  {
    if |v| > 60 {
      var rest := v[60..];
      FoldedAt(rest, if k < 60 then 0 else k - 60);
      var head := v[..60] + "\\\n";
      assert Folded(v) == head + Folded(rest);
      if k >= 60 {
        assert k / 60 == (k - 60) / 60 + 1;
        if k == 60 {
          assert Folded(v)[60..62] == "\\\n";
        } else if k % 60 == 0 {
          var j := k - 60 + (k - 60) / 60 * 2;
          assert Folded(v)[62 + j - 2..62 + j] == Folded(rest)[j - 2..j];
        }
      }
    }
  }

  // A printed variable: its name, an equal sign between two blanks, and its value, after every 60
  // characters of which a backslash ends the line.
  lemma PrintedAt(nm: string, v: string, k: nat)
    requires nm != "" && k < |v|
    ensures var text, at := EventText(Assign(nm, v)), |nm| + 3 + k + k / 60 * 2;
            && |text| == |nm| + 4 + |v| + (|v| - 1) / 60 * 2
            && text[..|nm| + 3] == nm + " = " && text[at] == v[k] && text[|text| - 1] == '\n'
            && (k > 0 && k % 60 == 0 ==> text[at - 2..at] == "\\\n")
  {
    FoldedAt(v, k);
    var text, head, at := EventText(Assign(nm, v)), nm + " = ", k + k / 60 * 2;
    assert text == head + (Folded(v) + "\n");
    assert text[|head| + at] == Folded(v)[at];
    if k > 0 && k % 60 == 0 { assert text[|head| + at - 2..|head| + at] == Folded(v)[at - 2..at]; }
  }

  // --- what can be read back ---

  ghost predicate Plain(s: string) { '\n' !in s && '\0' !in s }

  ghost predicate GoodName(nm: string) {
    && nm != "" && Plain(nm) && Trimmed(nm, BLANKS)
    && '=' !in nm && nm[0] != '#' && nm[0] != '['
  }

  // A value as the parser takes it from a line.
  ghost predicate ReadValue(v: string) {
    Plain(v) && Trimmed(v, BLANKS) && (v != "" ==> v[|v| - 1] != '\\')
  }

  ghost predicate GoodValue(v: string) { ReadValue(v) && '\r' !in v }

  ghost predicate GoodKey(k: string) { Plain(k) && Trimmed(k, BRACKETS) }

  // A remark as the parser reports it.
  ghost predicate ReadRemark(t: string) {
    && Plain(t) && Trimmed(t, BLANKS)
    && (t != "" && t[0] != '#' ==> t[|t| - 1] != '\\' && Classify(t) == Remark(t))
  }

  ghost predicate NoCrEnd(t: string) { t != "" ==> t[|t| - 1] != '\r' }

  // No comment ends in a carriage return.
  ghost predicate NoCrEnds(events: seq<Event>) {
    forall e | e in events && e.Remark? :: NoCrEnd(e.text)
  }

  // What is read of a remark's own line: the carriage returns at its end are dropped.
  function Worn(t: string): string { Trim(StripEol(t), BLANKS) }

  // Its line is then read as one that continues.
  predicate Dangling(t: string) { Worn(t) != "" && Worn(t)[0] != '#' && Worn(t)[|Worn(t)| - 1] == '\\' }

  ghost predicate GoodRemark(t: string) { ReadRemark(t) && !Dangling(t) }

  // What an event becomes when it is written and read back.
  function Reread(e: Event): Event { if e.Remark? then Remark(Worn(e.text)) else e }

  function RereadAll(events: seq<Event>): seq<Event> {
    if events == [] then [] else [Reread(events[0])] + RereadAll(events[1..])
  }

  ghost predicate NoDangling(events: seq<Event>) {
    forall e | e in events && e.Remark? :: !Dangling(e.text)
  }

  // What the parser reports, of any text.
  ghost predicate Readable(e: Event) {
    match e
    case Remark(t) => ReadRemark(t)
    case Header(k) => GoodKey(k)
    case Assign(nm, v) => GoodName(nm) && ReadValue(v)
  }

  // What can be written and read back.
  ghost predicate Good(e: Event) {
    match e
    case Remark(t) => GoodRemark(t)
    case Header(k) => GoodKey(k)
    case Assign(nm, v) => GoodName(nm) && GoodValue(v)
  }

  // No physical line of e is too long for the reader's buffer.
  ghost predicate Fits(e: Event) {
    match e
    case Remark(t) => |t| <= LL - 2
    case Header(k) => |k| + 2 <= LL - 2
    case Assign(nm, v) => |nm| + 3 + (if |v| <= FOLD then |v| else FOLD + 1) <= LL - 2
  }

  // --- reading one written line ---

  lemma ReadPlain(l: string, tail: string)
    requires Plain(l) && |l| <= LL - 2
    ensures GetLine(l + "\n" + tail, true) == Raw(l, tail, true)
    ensures CString(l) == l
  {
    var rest := l + "\n" + tail;
    assert rest[..|l|] == l;
    IndexAt(rest, '\n', |l|);
    IndexNone(l, '\0');
    assert rest[|l| + 1..] == tail;
  }

  lemma StripNothing(l: string)
    requires l != "" ==> l[|l| - 1] !in "\n\r"
    ensures StripEol(l) == l
  {
  }

  lemma TrimNothing(s: string, ws: string)
    requires Trimmed(s, ws)
    ensures Trim(s, ws) == s
  {
  }

  // A line that ends in neither end-of-line character is read as it was written.
  lemma ReadWritten(r: Reader, l: string, tail: string)
    requires r.good && r.rest == l + "\n" + tail
    requires Plain(l) && |l| <= LL - 2 && (l != "" ==> l[|l| - 1] != '\r')
    ensures ReadLine(r) == Digest(r, Joined(r, l), tail, true)
  {
    ReadPlain(l, tail);
    if l != "" { assert l[|l| - 1] in l; }
    StripNothing(l);
  }

  // Only the end of a remark can be lost.
  lemma WornPrefix(t: string)
    requires Trimmed(t, BLANKS)
    ensures Worn(t) <= t
  {
    StripPrefix(t);
    var s := StripEol(t);
    var i, j := TrimMiddle(s, BLANKS);
    if s != "" { assert s[0] == t[0]; }
  }

  // What is left says nothing else.
  lemma PrefixRemark(t: string, w: string)
    requires w != "" && w <= t && Classify(t) == Remark(t)
    ensures Classify(w) == Remark(w)
  {
    assert w[0] == t[0];
    var eq := IndexOf(t, '=');
    if eq < |w| {
      assert w[..eq] == t[..eq];
      IndexAt(w, '=', eq);
    } else {
      assert w == t[..eq][..|w|];
      IndexNone(w, '=');
    }
  }

  lemma RemarkRead(t: string, tail: string)
    requires GoodRemark(t) && Fits(Remark(t))
    ensures Events(Open(t + "\n" + tail)) == [Remark(Worn(t))] + Events(Open(tail))
  {
    var w := Worn(t);
    ReadPlain(t, tail);
    WornPrefix(t);
    if w != "" && w[0] != '#' { PrefixRemark(t, w); }
    assert ReadLine(Open(t + "\n" + tail)) == Turn([Remark(w)], Open(tail), false);
  }

  // Nothing is lost of it, exactly if it does not end in a carriage return.
  lemma WornIff(t: string)
    requires Plain(t) && Trimmed(t, BLANKS)
    ensures Worn(t) == t <==> NoCrEnd(t)
  {
    if NoCrEnd(t) {
      if t != "" { assert t[|t| - 1] in t; }
      StripNothing(t);
      TrimNothing(t, BLANKS);
    } else {
      StripPrefix(t[..|t| - 1]);
      TrimShrinks(StripEol(t), BLANKS);
    }
  }

  lemma NoCrEndGood(t: string)
    requires ReadRemark(t) && NoCrEnd(t)
    ensures GoodRemark(t)
  {
    WornIff(t);
  }

  lemma TrimHeader(k: string)
    requires Trimmed(k, BRACKETS)
    ensures Trim("[" + k + "]", BRACKETS) == k
  {
    var l := "[" + k + "]";
    assert BRACKETS[0] == '[' && BRACKETS[1] == ']';
    TrimLead(l, BRACKETS, 1);
    assert l[1..] == k + "]";
    if k == "" {
      assert k + "]" == "]";
      TrimLead("]", BRACKETS, 1);
    } else {
      TrimTail(k + "]", BRACKETS, |k|);
      assert (k + "]")[..|k|] == k;
      TrimNothing(k, BRACKETS);
    }
  }

  lemma HeaderRead(k: string, tail: string)
    requires GoodKey(k) && Fits(Header(k))
    ensures Events(Open("[" + k + "]" + "\n" + tail)) == [Header(k)] + Events(Open(tail))
  {
    var l := "[" + k + "]";
    var r := Open(l + "\n" + tail);
    ReadWritten(r, l, tail);
    TrimNothing(l, BLANKS);
    TrimHeader(k);
    assert ReadLine(r) == Turn([Header(k)], Open(tail), false);
  }

  // --- reading a variable back, folded or not ---

  // The reader is about to take head + Folded(u) onto what it has assembled so far.
  ghost predicate Mid(r: Reader, pre: string, head: string, u: string, tail: string) {
    && r.good
    && r.rest == head + Folded(u) + "\n" + tail
    && (if r.appending then r.line else "") == pre
  }

  // A logical line that starts like a variable.
  ghost predicate Starts(line: string) {
    line != "" && line[0] !in BLANKS && line[0] != '#' && line[0] != '['
  }

  lemma PlainConcat(a: string, b: string)
    requires Plain(a) && Plain(b)
    ensures Plain(a + b)
  {
  }

  lemma PlainSlice(a: string, i: nat, j: nat)
    requires Plain(a) && i <= j <= |a|
    ensures Plain(a[i..j])
  {
  }

  lemma LastPiece(r: Reader, pre: string, head: string, u: string, tail: string)
    requires Mid(r, pre, head, u, tail) && |u| <= FOLD && |head + u| <= LL - 2
    requires Plain(head + u) && (head + u != "" ==> (head + u)[|head + u| - 1] != '\r')
    ensures ReadLine(r) == Digest(r, Trim(pre + (head + u), BLANKS), tail, true)
  {
    assert r.rest == (head + u) + "\n" + tail;
    ReadWritten(r, head + u, tail);
    if !r.appending { assert pre + (head + u) == head + u; }
  }

  // The characters of a long value up to the next fold.
  lemma FoldPiece(r: Reader, pre: string, head: string, u: string, tail: string)
    requires Mid(r, pre, head, u, tail) && |u| > FOLD && |head| + FOLD + 1 <= LL - 2
    requires Plain(head) && Plain(u) && Starts(pre + (head + u[..FOLD]))
    ensures ReadLine(r)
         == Turn([], Reader(Folded(u[FOLD..]) + "\n" + tail, true, true, pre + (head + u[..FOLD])), false)
  {
    var l := head + u[..FOLD];
    var after := Folded(u[FOLD..]) + "\n" + tail;
    PlainSlice(u, 0, FOLD);
    PlainConcat(head, u[..FOLD]);
    PlainConcat(l, "\\");
    assert r.rest == (l + "\\") + "\n" + after;
    ReadWritten(r, l + "\\", after);
    FoldDigest(r, pre, l, after);
  }

  lemma FoldDigest(r: Reader, pre: string, l: string, after: string)
    requires Starts(pre + l) && (if r.appending then r.line else "") == pre
    ensures Digest(r, Joined(r, l + "\\"), after, true) == Turn([], Reader(after, true, true, pre + l), false)
  {
    var line := (pre + l) + "\\";
    assert pre + (l + "\\") == line;
    if !r.appending { assert line == l + "\\"; }
    TrimNothing(line, BLANKS);
    assert line[..|line| - 1] == pre + l;
  }

  // The line of a variable without its surrounding blanks.
  lemma TrimAssign(nm: string, v: string)
    requires GoodName(nm) && GoodValue(v)
    ensures Trim(nm + " = " + v, BLANKS) == if v == "" then nm + " =" else nm + " = " + v
  {
    var full := nm + " = " + v;
    var line := if v == "" then nm + " =" else full;
    if v == "" {
      assert full == line + " ";
      TrimTail(full, BLANKS, |line|);
      assert full[..|line|] == line;
    }
    TrimNothing(line, BLANKS);
  }

  // The complete line of a variable says just that.
  lemma AssignLine(nm: string, v: string)
    requires GoodName(nm) && GoodValue(v)
    ensures var line := Trim(nm + " = " + v, BLANKS);
            && line != "" && line[0] != '#' && line[|line| - 1] != '\\'
            && Classify(line) == Assign(nm, v)
  {
    var full := nm + " = " + v;
    var line := if v == "" then nm + " =" else full;
    TrimAssign(nm, v);
    assert line[0] == nm[0];
    var eq := |nm| + 1;
    assert line[..eq] == nm + " ";
    IndexAt(line, '=', eq);
    assert line[eq + 1..] == if v == "" then "" else " " + v;
    TrimSides(nm, v);
  }

  lemma TrimSides(nm: string, v: string)
    requires GoodName(nm) && GoodValue(v)
    ensures Trim(nm + " ", BLANKS) == nm && Trim(" " + v, BLANKS) == v
  {
    TrimTail(nm + " ", BLANKS, |nm|);
    assert (nm + " ")[..|nm|] == nm;
    TrimNothing(nm, BLANKS);
    TrimLead(" " + v, BLANKS, 1);
    assert (" " + v)[1..] == v;
    TrimNothing(v, BLANKS);
  }

  lemma LastRead(r: Reader, pre: string, head: string, u: string, tail: string, nm: string, v: string)
    requires GoodName(nm) && GoodValue(v) && Mid(r, pre, head, u, tail)
    requires pre + (head + u) == nm + " = " + v
    requires Plain(head) && Plain(u) && '\r' !in u && |u| <= FOLD && |head + u| <= LL - 2
    requires head != "" ==> head[|head| - 1] == ' '
    ensures Events(r) == [Assign(nm, v)] + Events(Open(tail))
  {
    PlainConcat(head, u);
    var l := head + u;
    if u != "" {
      assert l[|l| - 1] == u[|u| - 1];
    } else {
      assert l == head;
    }
    LastPiece(r, pre, head, u, tail);
    AssignLine(nm, v);
    assert ReadLine(r) == Turn([Assign(nm, v)], Open(tail), false);
  }

  lemma {:induction false} Pieces(r: Reader, pre: string, head: string, u: string, tail: string, nm: string, v: string)
    requires GoodName(nm) && GoodValue(v) && Mid(r, pre, head, u, tail)
    requires pre + (head + u) == nm + " = " + v
    requires Plain(head) && Plain(u) && '\r' !in u
    requires head + u != "" && (head != "" ==> head[|head| - 1] == ' ')
    requires pre + head != "" && (pre + head)[0] == nm[0]
    requires |head| + (if |u| <= FOLD then |u| else FOLD + 1) <= LL - 2
    ensures Events(r) == [Assign(nm, v)] + Events(Open(tail))
    decreases |u|
  {
    if |u| <= FOLD {
      LastRead(r, pre, head, u, tail, nm, v);
    } else {
      var pre1 := pre + (head + u[..FOLD]);
      FirstStarts(pre, head, u[..FOLD], nm);
      FoldPiece(r, pre, head, u, tail);
      var r1 := ReadLine(r).next;
      Shift(pre, head, u);
      PlainSlice(u, FOLD, |u|);
      Pieces(r1, pre1, "", u[FOLD..], tail, nm, v);
      assert Events(r) == [] + Events(r1);
    }
  }

  lemma FirstStarts(pre: string, head: string, piece: string, nm: string)
    requires GoodName(nm) && pre + head != "" && (pre + head)[0] == nm[0]
    ensures Starts(pre + (head + piece)) && (pre + (head + piece))[0] == nm[0]
  {
    assert pre + (head + piece) == (pre + head) + piece;
  }

  lemma Shift(pre: string, head: string, u: string)
    requires |u| > FOLD
    ensures pre + (head + u[..FOLD]) + ("" + u[FOLD..]) == pre + (head + u)
    ensures "" + Folded(u[FOLD..]) == Folded(u[FOLD..])
    ensures pre + (head + u[..FOLD]) + "" == pre + (head + u[..FOLD])
  {
    assert u == u[..FOLD] + u[FOLD..];
  }

  lemma AssignRead(nm: string, v: string, tail: string)
    requires Good(Assign(nm, v)) && Fits(Assign(nm, v))
    ensures Events(Open(EventText(Assign(nm, v)) + tail)) == [Assign(nm, v)] + Events(Open(tail))
  {
    var head := nm + " = ";
    PlainConcat(nm, " = ");
    var r := Open(EventText(Assign(nm, v)) + tail);
    assert r.rest == head + Folded(v) + "\n" + tail;
    assert "" + (head + v) == nm + " = " + v;
    assert "" + head == head;
    Pieces(r, "", head, v, tail, nm, v);
  }

  lemma EventRead(e: Event, tail: string)
    requires Good(e) && Fits(e)
    ensures Events(Open(EventText(e) + tail)) == [Reread(e)] + Events(Open(tail))
  {
    match e {
      case Remark(t) => RemarkRead(t, tail);
      case Header(k) => HeaderRead(k, tail);
      case Assign(nm, v) => AssignRead(nm, v, tail);
    }
  }

  // The reader gets back what was written, whatever the length of the values, but for the ends of
  // remarks.
  lemma {:induction false} ReadAgain(events: seq<Event>)
    requires forall e | e in events :: Good(e) && Fits(e)
    ensures Events(Open(Text(events))) == RereadAll(events)
  {
    if events == [] {
      NothingRead();
    } else {
      var e, more := events[0], events[1..];
      assert e in events;
      forall x | x in more ensures Good(x) && Fits(x) {
        assert x in events;
      }
      ReadAgain(more);
      EventRead(e, Text(more));
    }
  }

  // It gets back exactly that, if and only if no remark ends in a carriage return.
  lemma ReadBackIff(events: seq<Event>)
    requires forall e | e in events :: Good(e) && Fits(e)
    ensures Events(Open(Text(events))) == events <==> NoCrEnds(events)
  {
    ReadAgain(events);
    RereadIff(events);
  }

  lemma {:induction false} RereadIff(events: seq<Event>)
    requires forall e | e in events :: Good(e)
    ensures RereadAll(events) == events <==> NoCrEnds(events)
  {
    if events != [] {
      var e, more := events[0], events[1..];
      assert e in events;
      forall x | x in more ensures x in events {}
      RereadIff(more);
      if e.Remark? { WornIff(e.text); }
      HeadAndTail(events);
      assert NoCrEnds(events) <==> (e.Remark? ==> NoCrEnd(e.text)) && NoCrEnds(more) by {
        forall x | x in events ensures x == e || x in more {}
      }
    }
  }

  lemma ReadBack(events: seq<Event>)
    requires NoCrEnds(events) && forall e | e in events :: Good(e) && Fits(e)
    ensures Events(Open(Text(events))) == events
  {
    ReadBackIff(events);
  }

  lemma NothingRead()
    ensures Events(Open("")) == []
  {
    assert GetLine("", true) == Raw("", "", false);
  }

  // --- what is read ---

  lemma {:induction false} StripPrefix(l: string)
    ensures StripEol(l) <= l
  {
    if l != "" && l[|l| - 1] in "\n\r" {
      StripPrefix(l[..|l| - 1]);
    }
  }

  lemma GetLinePlain(rest: string, good: bool)
    ensures Plain(StripEol(CString(GetLine(rest, good).line)))
  {
    var raw := GetLine(rest, good);
    if good {
      var n := IndexOf(rest, '\n');
      var k := if n > LL - 2 then LL - 2 else n;
      assert raw.line == rest[..k] == rest[..n][..k];
    }
    var l := CString(raw.line);
    StripPrefix(l);
    assert Plain(l);
    PlainSlice(l, 0, |StripEol(l)|);
  }

  lemma TrimPlain(s: string, ws: string)
    requires Plain(s)
    ensures Plain(Trim(s, ws)) && Trimmed(Trim(s, ws), ws)
  {
    var i, j := TrimMiddle(s, ws);
  }

  lemma ClassifyReadable(line: string)
    requires line != "" && Plain(line) && Trimmed(line, BLANKS)
    requires line[0] != '#' && line[|line| - 1] != '\\'
    ensures Readable(Classify(line))
  {
    if line[0] == '[' {
      TrimPlain(line, BRACKETS);
    } else {
      var eq := IndexOf(line, '=');
      if eq < |line| && Trim(line[..eq], BLANKS) != "" {
        PlainSlice(line, 0, eq);
        PlainSlice(line, eq + 1, |line|);
        TrimPlain(line[..eq], BLANKS);
        TrimPlain(line[eq + 1..], BLANKS);
        NameStarts(line, eq);
        if Trim(line[eq + 1..], BLANKS) != "" { ValueEnds(line, eq); }
      }
    }
  }

  lemma NameStarts(line: string, eq: nat)
    requires eq < |line| && line[0] !in BLANKS && '=' !in line[..eq] && Trim(line[..eq], BLANKS) != ""
    ensures Trim(line[..eq], BLANKS)[0] == line[0] && '=' !in Trim(line[..eq], BLANKS)
  {
    var i, j := TrimMiddle(line[..eq], BLANKS);
    assert line[..eq][0] == line[0];
  }

  lemma ValueEnds(line: string, eq: nat)
    requires eq < |line| && line[|line| - 1] !in BLANKS && Trim(line[eq + 1..], BLANKS) != ""
    ensures var v := Trim(line[eq + 1..], BLANKS); v[|v| - 1] == line[|line| - 1]
  {
    var rest := line[eq + 1..];
    var i, j := TrimMiddle(rest, BLANKS);
    assert rest[|rest| - 1] == line[|line| - 1];
  }

  lemma TurnReadable(r: Reader)
    requires Plain(r.line)
    ensures Plain(ReadLine(r).next.line)
    ensures forall e | e in ReadLine(r).events :: Readable(e)
  {
    GetLinePlain(r.rest, r.good);
    var text := StripEol(CString(GetLine(r.rest, r.good).line));
    PlainConcat(r.line, text);
    TrimPlain(if r.appending then r.line + text else text, BLANKS);
    var line := Joined(r, text);
    if line != "" && line[0] != '#' {
      if line[|line| - 1] == '\\' {
        PlainSlice(line, 0, |line| - 1);
      } else {
        ClassifyReadable(line);
      }
    }
  }

  // Whatever text the reader is given, what it reports has names without '=', trimmed, and so on.
  lemma {:induction false} EventsReadable(r: Reader)
    requires Plain(r.line)
    ensures forall e | e in Events(r) :: Readable(e)
    decreases StreamLeft(r), LineLeft(r)
  {
    TurnReadable(r);
    if !ReadLine(r).stop {
      LoopShrinks(r);
      EventsReadable(ReadLine(r).next);
    }
  }

  // --- texts with carriage returns only at line ends ---

  // Carriage returns stand only at line ends, where the parser drops them.
  ghost predicate CrAtEnds(text: string) {
    forall i | 0 <= i < |text| && text[i] == '\r' :: i + 1 == |text| || text[i + 1] in "\n\r"
  }

  ghost predicate NoCr(r: Reader) {
    CrAtEnds(r.rest) && '\r' !in r.line && Plain(r.line)
  }

  // A line in which a carriage return is only followed by others has none once they are stripped.
  lemma {:induction false} StripCr(l: string)
    requires '\n' !in l && forall i | 0 <= i < |l| - 1 && l[i] == '\r' :: l[i + 1] == '\r'
    ensures '\r' !in StripEol(l) && StripEol(l) <= l
    decreases |l|
  {
    if l != "" {
      var n := |l| - 1;
      if l[n] == '\r' {
        StripCr(l[..n]);
      } else {
        assert l[n] in l;
        NoCrBefore(l, n);
      }
    }
  }

  lemma NoCrBefore(l: string, n: nat)
    requires n == |l| - 1 && l[n] != '\r'
    requires forall i | 0 <= i < |l| - 1 && l[i] == '\r' :: l[i + 1] == '\r'
    ensures '\r' !in l
  {
    if '\r' in l {
      var i :| 0 <= i < |l| && l[i] == '\r';
      CrRuns(l, i, n);
    }
  }

  lemma {:induction false} CrRuns(l: string, i: nat, n: nat)
    requires i <= n == |l| - 1 && l[i] == '\r'
    requires forall j | 0 <= j < |l| - 1 && l[j] == '\r' :: l[j + 1] == '\r'
    ensures l[n] == '\r'
    decreases n - i
  {
    if i < n {
      CrRuns(l, i + 1, n);
    }
  }

  // A piece of such a text that a line is read from.
  lemma CrSlice(text: string, n: nat)
    requires CrAtEnds(text) && n <= |text| && '\n' !in text[..n]
    ensures forall i | 0 <= i < n - 1 && text[..n][i] == '\r' :: text[..n][i + 1] == '\r'
    ensures CrAtEnds(text[n..])
  {
    forall i | 0 <= i < n - 1 && text[..n][i] == '\r' ensures text[..n][i + 1] == '\r' {
      assert text[i] == '\r' && text[i + 1] == text[..n][i + 1];
      assert text[..n][i + 1] in text[..n];
    }
  }

  lemma CrPrefix(l: string, n: nat)
    requires n <= |l| && forall i | 0 <= i < |l| - 1 && l[i] == '\r' :: l[i + 1] == '\r'
    ensures forall i | 0 <= i < n - 1 && l[..n][i] == '\r' :: l[..n][i + 1] == '\r'
  {
  }

  lemma GetLineClean(rest: string, good: bool)
    requires CrAtEnds(rest)
    ensures var raw := GetLine(rest, good); CrAtEnds(raw.rest) && '\n' !in raw.line
    ensures var l := StripEol(CString(GetLine(rest, good).line)); Plain(l) && '\r' !in l
  {
    var raw := GetLine(rest, good);
    if good {
      var n := IndexOf(rest, '\n');
      var k := if n > LL - 2 then LL - 2 else n;
      assert rest[..n][..k] == rest[..k];
      CrSlice(rest, k);
      assert raw.line == rest[..k];
      var m := IndexOf(raw.line, '\0');
      CrPrefix(raw.line, m);
      StripCr(CString(raw.line));
    }
  }

  lemma TrimNoCr(s: string, ws: string)
    requires '\r' !in s
    ensures '\r' !in Trim(s, ws)
  {
    var i, j := TrimMiddle(s, ws);
  }

  lemma DigestNoCr(r: Reader, line: string, rest: string, good: bool)
    requires '\r' !in r.line && '\r' !in line && CrAtEnds(r.rest) && CrAtEnds(rest)
    ensures var turn := Digest(r, line, rest, good);
            '\r' !in turn.next.line && CrAtEnds(turn.next.rest) && NoCrEnds(turn.events)
  {
    if line != "" {
      assert line[|line| - 1] in line;
      if line[0] != '#' && line[|line| - 1] == '\\' { assert '\r' !in line[..|line| - 1]; }
    }
  }

  lemma TurnNoCr(r: Reader)
    requires NoCr(r)
    ensures NoCr(ReadLine(r).next) && NoCrEnds(ReadLine(r).events)
  {
    GetLineClean(r.rest, r.good);
    TurnReadable(r);
    var text := StripEol(CString(GetLine(r.rest, r.good).line));
    var line := Joined(r, text);
    TrimNoCr(if r.appending then r.line + text else text, BLANKS);
    DigestNoCr(r, line, GetLine(r.rest, r.good).rest, GetLine(r.rest, r.good).good);
  }

  lemma AppendNoCrEnds(a: seq<Event>, b: seq<Event>)
    requires NoCrEnds(a) && NoCrEnds(b)
    ensures NoCrEnds(a + b)
  {
  }

  // The parser drops the carriage returns of such a text.
  lemma {:induction false} EventsNoCr(r: Reader)
    requires NoCr(r)
    ensures NoCrEnds(Events(r))
    decreases StreamLeft(r), LineLeft(r)
  {
    TurnNoCr(r);
    if !ReadLine(r).stop {
      LoopShrinks(r);
      EventsNoCr(ReadLine(r).next);
      AppendNoCrEnds(ReadLine(r).events, Events(ReadLine(r).next));
    }
  }
}
