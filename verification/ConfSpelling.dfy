// How a configuration may be written by hand: blanks around everything, either line end, lines that
// continue, a last line without its end, and what is too long.
module ConfSpelling {
  import opened ConfText
  import opened ConfReader
  import opened ConfWriter

  predicate Blank(s: string) { forall i | 0 <= i < |s| :: s[i] == ' ' || s[i] == '\t' }

  // The variable nm with value v.
  function Assignment(b0: string, nm: string, b1: string, b2: string, v: string, b3: string): string {
    b0 + nm + b1 + "=" + b2 + v + b3
  }

  // --- blanks ---

  lemma TrimAround(b0: string, m: string, b1: string)
    requires Blank(b0) && Blank(b1) && Trimmed(m, BLANKS)
    ensures Trim(b0 + m + b1, BLANKS) == m
  {
    var s := b0 + m + b1;
    assert s[|b0|..] == m + b1;
    TrimLead(s, BLANKS, |b0|);
    TrimTail(m + b1, BLANKS, |m|);
    assert (m + b1)[..|m|] == m;
    TrimNothing(m, BLANKS);
  }

  lemma TrimBefore(b0: string, m: string)
    requires Blank(b0) && Trimmed(m, BLANKS)
    ensures Trim(b0 + m, BLANKS) == m
  {
    TrimAround(b0, m, "");
    assert b0 + m + "" == b0 + m;
  }

  lemma TrimAfter(m: string, b1: string)
    requires Blank(b1) && Trimmed(m, BLANKS)
    ensures Trim(m + b1, BLANKS) == m
  {
    TrimAround("", m, b1);
    assert "" + m + b1 == m + b1;
  }

  lemma BlankPlain(b: string)
    requires Blank(b)
    ensures Plain(b) && '\r' !in b && '=' !in b
  {
  }

  // --- what one line says ---

  // A line without control characters that does not end in a carriage return is taken as it stands.
  lemma LineRead(l: string, tail: string, m: string, e: Event)
    requires Plain(l) && |l| <= 2046 && (l != "" ==> l[|l| - 1] != '\r') && Trim(l, BLANKS) == m
    requires if m == "" || m[0] == '#' then e == Remark(m) else m[|m| - 1] != '\\' && e == Classify(m)
    ensures Events(Open(l + "\n" + tail)) == [e] + Events(Open(tail))
  {
    var r := Open(l + "\n" + tail);
    ReadWritten(r, l, tail);
    assert ReadLine(r) == Turn([e], Open(tail), false);
  }

  lemma NamePart(nm: string, b1: string, more: string)
    requires GoodName(nm) && Blank(b1)
    ensures var l := nm + b1 + "=" + more;
            && l[0] == nm[0] && IndexOf(l, '=') == |nm + b1|
            && Trim(l[..|nm + b1|], BLANKS) == nm && l[|nm + b1| + 1..] == more
  {
    var l := nm + b1 + "=" + more;
    BlankPlain(b1);
    assert l[..|nm + b1|] == nm + b1;
    IndexAt(l, '=', |nm + b1|);
    TrimAfter(nm, b1);
  }

  // The line without the blanks around it, and what it says.
  lemma AssignSays(nm: string, b1: string, b2: string, v: string)
    requires GoodName(nm) && GoodValue(v) && Blank(b1) && Blank(b2)
    ensures var m := nm + b1 + "=" + (if v == "" then "" else b2 + v);
            && Trimmed(m, BLANKS) && m != "" && m[0] != '#' && m[|m| - 1] != '\\'
            && Classify(m) == Assign(nm, v)
  {
    var more := if v == "" then "" else b2 + v;
    var m := nm + b1 + "=" + more;
    NamePart(nm, b1, more);
    if v != "" {
      TrimBefore(b2, v);
      assert m[|m| - 1] == v[|v| - 1];
    }
  }

  lemma AssignTrims(b0: string, nm: string, b1: string, b2: string, v: string, b3: string)
    requires GoodName(nm) && GoodValue(v) && Blank(b0) && Blank(b1) && Blank(b2) && Blank(b3)
    ensures Trim(Assignment(b0, nm, b1, b2, v, b3), BLANKS) == nm + b1 + "=" + (if v == "" then "" else b2 + v)
  {
    var l := Assignment(b0, nm, b1, b2, v, b3);
    AssignSays(nm, b1, b2, v);
    Regroup(b0, nm, b1, b2, v, b3);
    if v == "" {
      TrimAround(b0, nm + b1 + "=" + "", b2 + b3);
    } else {
      TrimAround(b0, nm + b1 + "=" + (b2 + v), b3);
    }
  }

  lemma Regroup(b0: string, nm: string, b1: string, b2: string, v: string, b3: string)
    ensures Assignment(b0, nm, b1, b2, v, b3) == b0 + (nm + b1 + "=" + (b2 + v)) + b3
    ensures v == "" ==> Assignment(b0, nm, b1, b2, v, b3) == b0 + (nm + b1 + "=" + "") + (b2 + b3)
  {
  }

  lemma AssignPlain(b0: string, nm: string, b1: string, b2: string, v: string, b3: string)
    requires GoodName(nm) && GoodValue(v) && Blank(b0) && Blank(b1) && Blank(b2) && Blank(b3)
    ensures var l := Assignment(b0, nm, b1, b2, v, b3); Plain(l) && l[|l| - 1] != '\r'
  {
    BlankPlain(b2);
    BlankPlain(b3);
    PlainConcat(b0, nm);
    PlainConcat(b0 + nm, b1);
    PlainConcat(b0 + nm + b1, "=");
    PlainConcat(b0 + nm + b1 + "=", b2);
    PlainConcat(b0 + nm + b1 + "=" + b2, v);
    PlainConcat(b0 + nm + b1 + "=" + b2 + v, b3);
    LastOf(b0 + nm + b1, b2, v, b3);
  }

  lemma LastOf(a: string, b2: string, v: string, b3: string)
    requires '\r' !in b2 && '\r' !in v && '\r' !in b3
    ensures var l := a + "=" + b2 + v + b3; l[|l| - 1] != '\r'
  {
    var l, n := a + "=" + b2 + v + b3, |a| + |b2| + |v| + |b3|;
    assert l[n] == if b3 != "" then b3[|b3| - 1] else if v != "" then v[|v| - 1] else if b2 != "" then b2[|b2| - 1]
                   else '=';
  }

  // Whatever blanks surround the name and the value.
  lemma AssignSpelt(b0: string, nm: string, b1: string, b2: string, v: string, b3: string, tail: string)
    requires GoodName(nm) && GoodValue(v) && Blank(b0) && Blank(b1) && Blank(b2) && Blank(b3)
    requires |Assignment(b0, nm, b1, b2, v, b3)| <= 2046
    ensures Events(Open(Assignment(b0, nm, b1, b2, v, b3) + "\n" + tail)) == [Assign(nm, v)] + Events(Open(tail))
  {
    AssignPlain(b0, nm, b1, b2, v, b3);
    AssignTrims(b0, nm, b1, b2, v, b3);
    AssignSays(nm, b1, b2, v);
    LineRead(Assignment(b0, nm, b1, b2, v, b3), tail, nm + b1 + "=" + (if v == "" then "" else b2 + v), Assign(nm, v));
  }

  lemma KeyPlain(b0: string, k: string, b1: string)
    requires GoodKey(k) && Blank(b0) && Blank(b1)
    ensures var l := b0 + "[" + k + "]" + b1; Plain(l) && l[|l| - 1] != '\r'
    ensures Trim(b0 + "[" + k + "]" + b1, BLANKS) == "[" + k + "]"
  {
    BlankPlain(b1);
    PlainConcat(b0, "[");
    PlainConcat(b0 + "[", k);
    PlainConcat(b0 + "[" + k, "]");
    PlainConcat(b0 + "[" + k + "]", b1);
    var l := b0 + "[" + k + "]" + b1;
    assert l[|l| - 1] == if b1 == "" then ']' else b1[|b1| - 1];
    assert l == b0 + ("[" + k + "]") + b1;
    TrimAround(b0, "[" + k + "]", b1);
  }

  // Blanks around the brackets of a section line.
  lemma HeaderSpelt(b0: string, k: string, b1: string, tail: string)
    requires GoodKey(k) && Blank(b0) && Blank(b1) && |b0 + "[" + k + "]" + b1| <= 2046
    ensures Events(Open(b0 + "[" + k + "]" + b1 + "\n" + tail)) == [Header(k)] + Events(Open(tail))
  {
    KeyPlain(b0, k, b1);
    TrimHeader(k);
    LineRead(b0 + "[" + k + "]" + b1, tail, "[" + k + "]", Header(k));
  }

  // A line that starts with '#', whatever it ends in, a backslash included.
  lemma RemarkSpelt(b0: string, t: string, b1: string, tail: string)
    requires Plain(t) && (t != "" ==> t[|t| - 1] !in " \t\r") && Blank(b0) && Blank(b1)
    requires |b0 + "#" + t + b1| <= 2046
    ensures Events(Open(b0 + "#" + t + b1 + "\n" + tail)) == [Remark("#" + t)] + Events(Open(tail))
  {
    var l := b0 + "#" + t + b1;
    BlankPlain(b1);
    PlainConcat(b0, "#");
    PlainConcat(b0 + "#", t);
    PlainConcat(b0 + "#" + t, b1);
    assert l[|l| - 1] == if b1 != "" then b1[|b1| - 1] else if t != "" then t[|t| - 1] else '#';
    assert l == b0 + ("#" + t) + b1;
    TrimAround(b0, "#" + t, b1);
    LineRead(l, tail, "#" + t, Remark("#" + t));
  }

  // A blank line is kept as an empty remark.
  lemma BlankSpelt(b: string, tail: string)
    requires Blank(b) && |b| <= 2046
    ensures Events(Open(b + "\n" + tail)) == [Remark("")] + Events(Open(tail))
  {
    BlankPlain(b);
    TrimAfter("", b);
    assert "" + b == b;
    LineRead(b, tail, "", Remark(""));
  }

  // So is, as it stands, a line that says nothing, for want of an '=' or of a name before it.
  lemma JunkSpelt(b0: string, t: string, b1: string, tail: string)
    requires Plain(t) && Trimmed(t, BLANKS) && t != "" && t[0] != '#' && t[0] != '[' && t[|t| - 1] !in "\\\r"
    requires '=' !in t || t[0] == '='
    requires Blank(b0) && Blank(b1) && |b0 + t + b1| <= 2046
    ensures Events(Open(b0 + t + b1 + "\n" + tail)) == [Remark(t)] + Events(Open(tail))
  {
    var l := b0 + t + b1;
    BlankPlain(b1);
    PlainConcat(b0, t);
    PlainConcat(b0 + t, b1);
    assert l[|l| - 1] == if b1 != "" then b1[|b1| - 1] else t[|t| - 1];
    TrimAround(b0, t, b1);
    if '=' !in t { IndexNone(t, '='); } else { IndexAt(t, '=', 0); }
    LineRead(l, tail, t, Remark(t));
  }

  // --- line ends ---

  lemma SameTurn(a: Reader, b: Reader)
    requires ReadLine(a) == ReadLine(b)
    ensures Events(a) == Events(b)
  {
  }

  lemma GetLineAt(l: string, tail: string)
    requires '\n' !in l && |l| <= 2046
    ensures GetLine(l + "\n" + tail, true) == Raw(l, tail, true)
  {
    var rest := l + "\n" + tail;
    assert rest[..|l|] == l;
    IndexAt(rest, '\n', |l|);
    assert rest[|l| + 1..] == tail;
  }

  // A carriage return before the line end makes no difference.
  lemma CarriageReturn(l: string, tail: string)
    requires Plain(l) && |l| < 2046
    ensures Events(Open(l + "\r\n" + tail)) == Events(Open(l + "\n" + tail))
  {
    var c := l + "\r";
    assert l + "\r\n" + tail == c + "\n" + tail;
    PlainConcat(l, "\r");
    ReadPlain(l, tail);
    ReadPlain(c, tail);
    assert c[..|l|] == l;
    SameLine(Open(c + "\n" + tail), Open(l + "\n" + tail));
  }

  // Two readers that get the same line do the same with it.
  lemma SameLine(a: Reader, b: Reader)
    requires a.appending == b.appending == false && a.line == b.line == ""
    requires GetLine(a.rest, a.good).good && GetLine(b.rest, b.good).good
    requires GetLine(a.rest, a.good).rest == GetLine(b.rest, b.good).rest
    requires StripEol(CString(GetLine(a.rest, a.good).line)) == StripEol(CString(GetLine(b.rest, b.good).line))
    ensures Events(a) == Events(b)
  {
    SameTurn(a, b);
  }

  // What follows a zero byte on a line is not read.
  lemma ZeroByte(l: string, more: string, tail: string)
    requires Plain(l) && '\n' !in more && |l| + |more| < 2046
    ensures Events(Open(l + "\0" + more + "\n" + tail)) == Events(Open(l + "\n" + tail))
  {
    var c := l + "\0" + more;
    ReadPlain(l, tail);
    GetLineAt(c, tail);
    assert c[..|l|] == l;
    IndexAt(c, '\0', |l|);
    SameLine(Open(c + "\n" + tail), Open(l + "\n" + tail));
  }

  // A line of more than 2046 characters is cut there, and nothing after it is read.
  lemma LongLine(l: string, more: string)
    requires |l| == 2047 && '\n' !in l
    ensures Events(Open(l + more)) == Events(Open(l[..2046]))
  {
    var text, cut := l + more, l[..2046];
    assert forall i | 0 <= i < |l| :: text[i] == l[i] && l[i] in l;
    IndexNone(cut, '\n');
    assert text[..2046] == cut;
    AtEnd(Open(text), Open(cut));
  }

  // At the end of the stream what is left of it does not matter.
  lemma {:induction false} AtEnd(a: Reader, b: Reader)
    requires a.appending == b.appending && a.line == b.line
    requires !GetLine(a.rest, a.good).good && !GetLine(b.rest, b.good).good
    requires GetLine(a.rest, a.good).line == GetLine(b.rest, b.good).line
    ensures Events(a) == Events(b)
    decreases StreamLeft(a), LineLeft(a)
  {
    if !ReadLine(a).stop {
      LoopShrinks(a);
      AtEnd(ReadLine(a).next, ReadLine(b).next);
    }
  }

  // The last line of a file without its line end.
  lemma LastLine(l: string)
    requires Plain(l) && |l| <= 2046 && (l != "" ==> l[|l| - 1] != '\r')
    ensures ReadLine(Open(l)) == Digest(Open(l), Trim(l, BLANKS), "", false)
  {
    LastGet(l);
    StripPlain(l);
    ReadAs(Open(l), Raw(l, "", false), l);
  }

  lemma StripPlain(l: string)
    requires Plain(l) && (l != "" ==> l[|l| - 1] != '\r')
    ensures StripEol(l) == l
  {
    if l != "" { assert l[|l| - 1] in l; }
    StripNothing(l);
  }

  lemma ReadAs(r: Reader, raw: Raw, text: string)
    requires GetLine(r.rest, r.good) == raw && StripEol(CString(raw.line)) == text
    ensures ReadLine(r) == Digest(r, Joined(r, text), raw.rest, raw.good)
  {
  }

  lemma LastGet(l: string)
    requires Plain(l) && |l| <= 2046
    ensures GetLine(l, true) == Raw(l, "", false) && CString(l) == l
  {
    IndexNone(l, '\n');
    IndexNone(l, '\0');
  }

  // It counts if it gives a variable a value,
  lemma LastAssign(b0: string, nm: string, b1: string, b2: string, v: string, b3: string)
    requires GoodName(nm) && GoodValue(v) && Blank(b0) && Blank(b1) && Blank(b2) && Blank(b3)
    requires |Assignment(b0, nm, b1, b2, v, b3)| <= 2046
    ensures Events(Open(Assignment(b0, nm, b1, b2, v, b3))) == [Assign(nm, v)]
  {
    AssignPlain(b0, nm, b1, b2, v, b3);
    AssignTrims(b0, nm, b1, b2, v, b3);
    AssignSays(nm, b1, b2, v);
    LastLine(Assignment(b0, nm, b1, b2, v, b3));
  }

  // but is lost if it starts with '#'.
  lemma LastRemark(b0: string, t: string)
    requires Plain(t) && (t != "" ==> t[|t| - 1] !in " \t\r") && Blank(b0) && |b0 + "#" + t| <= 2046
    ensures Events(Open(b0 + "#" + t)) == []
  {
    var l := b0 + "#" + t;
    PlainConcat(b0, "#");
    PlainConcat(b0 + "#", t);
    assert l[|l| - 1] == if t != "" then t[|t| - 1] else '#';
    assert l == b0 + ("#" + t);
    TrimBefore(b0, "#" + t);
    LastLine(l);
  }

  // --- comments that never end ---

  // After a line of nothing but a backslash, a line that starts with '#' keeps being continued: whatever
  // follows is taken for a part of the comment.
  lemma {:induction false} OnlyRemarks(r: Reader)
    requires r.appending && r.line != "" && r.line[0] == '#'
    ensures forall e | e in Events(r) :: e.Remark?
    decreases StreamLeft(r), LineLeft(r)
  {
    var text := StripEol(CString(GetLine(r.rest, r.good).line));
    HashFirst(r.line, text);
    if !ReadLine(r).stop {
      LoopShrinks(r);
      OnlyRemarks(ReadLine(r).next);
    }
  }

  lemma HashFirst(a: string, c: string)
    requires a != "" && a[0] == '#'
    ensures Trim(a + c, BLANKS) != "" && Trim(a + c, BLANKS)[0] == '#'
  {
    var i, j := TrimMiddle(a + c, BLANKS);
    assert (a + c)[0] == a[0];
  }

  lemma LoneBackslash(t: string, tail: string)
    requires Plain(t) && |t| <= 2045 && (t != "" ==> t[|t| - 1] !in " \t\r")
    ensures forall e | e in Events(Open("\\" + "\n" + ("#" + t + "\n" + tail))) :: e.Remark?
  {
    var rest := "#" + t + "\n" + tail;
    var r, mid := Open("\\" + "\n" + rest), Reader(rest, true, true, "");
    ReadWritten(r, "\\", rest);
    TrimNothing("\\", BLANKS);
    assert Digest(r, "\\", rest, true) == Turn([], mid, false);
    assert Events(r) == [] + Events(mid);
    HashGoesOn(t, tail);
  }

  lemma HashGoesOn(t: string, tail: string)
    requires Plain(t) && |t| <= 2045 && (t != "" ==> t[|t| - 1] !in " \t\r")
    ensures forall e | e in Events(Reader("#" + t + "\n" + tail, true, true, "")) :: e.Remark?
  {
    var mid, next := Reader("#" + t + "\n" + tail, true, true, ""), Reader(tail, true, true, "#" + t);
    PlainConcat("#", t);
    assert ("#" + t)[|t|] == if t == "" then '#' else t[|t| - 1];
    ReadWritten(mid, "#" + t, tail);
    TrimNothing("#" + t, BLANKS);
    assert "" + ("#" + t) == "#" + t;
    assert ReadLine(mid) == Turn([Remark("#" + t)], next, false);
    OnlyRemarks(next);
    assert Events(mid) == [Remark("#" + t)] + Events(next);
  }

  // --- lines that continue ---

  // Two lines, the first of which ends in a backslash and perhaps blanks, are read as one.
  lemma Continued(a: string, b: string, c: string, tail: string)
    requires Plain(a) && Plain(c) && Blank(b) && a != "" && a[0] !in " \t#" && '\r' !in c
    requires |a| + 1 + |b| <= 2046 && |a + c| <= 2046
    requires c == "" ==> a[|a| - 1] != '\r'
    ensures Events(Open(a + "\\" + b + "\n" + c + "\n" + tail)) == Events(Open(a + c + "\n" + tail))
  {
    ContinuedTurn(a, b, c + "\n" + tail);
    ContinuedTail(a, c, tail);
    ContinuedText(a + "\\" + b, c, tail);
  }

  lemma ContinuedText(l: string, c: string, tail: string)
    ensures l + "\n" + (c + "\n" + tail) == l + "\n" + c + "\n" + tail
  {
  }

  // The first of them alone.
  lemma ContinuedTurn(a: string, b: string, rest: string)
    requires Plain(a) && Blank(b) && a != "" && a[0] !in " \t#" && |a| + 1 + |b| <= 2046
    ensures Events(Open(a + "\\" + b + "\n" + rest)) == Events(Reader(rest, true, true, a))
  {
    var l := a + "\\" + b;
    var r := Open(l + "\n" + rest);
    BlankPlain(b);
    PlainConcat(a, "\\");
    PlainConcat(a + "\\", b);
    assert l[|l| - 1] == if b == "" then '\\' else b[|b| - 1];
    ReadWritten(r, l, rest);
    TrimAfter(a + "\\", b);
    DigestBackslash(r, a, rest);
    assert Events(r) == [] + Events(Reader(rest, true, true, a));
  }

  lemma DigestBackslash(r: Reader, a: string, rest: string)
    requires a != "" && a[0] != '#'
    ensures Digest(r, a + "\\", rest, true) == Turn([], Reader(rest, true, true, a), false)
  {
    assert (a + "\\")[..|a|] == a;
  }

  lemma ContinuedTail(a: string, c: string, tail: string)
    requires Plain(a) && Plain(c) && a != "" && a[0] !in " \t#" && '\r' !in c && |a + c| <= 2046
    requires c == "" ==> a[|a| - 1] != '\r'
    ensures Events(Reader(c + "\n" + tail, true, true, a)) == Events(Open(a + c + "\n" + tail))
  {
    var mid, one := Reader(c + "\n" + tail, true, true, a), Open(a + c + "\n" + tail);
    PlainConcat(a, c);
    if c != "" { assert c[|c| - 1] in c && (a + c)[|a + c| - 1] == c[|c| - 1]; }
    ReadWritten(mid, c, tail);
    ReadWritten(one, a + c, tail);
    KeepsFirst(a, c);
    assert Joined(mid, c) == Joined(one, a + c) == Trim(a + c, BLANKS);
    SameDigest(mid, one, Trim(a + c, BLANKS), tail);
    SameTurn(mid, one);
  }

  lemma SameDigest(a: Reader, b: Reader, line: string, rest: string)
    requires line != "" && line[0] != '#'
    ensures Digest(a, line, rest, true) == Digest(b, line, rest, true)
  {
  }

  lemma KeepsFirst(a: string, c: string)
    requires a != "" && a[0] !in " \t#"
    ensures Trim(a + c, BLANKS) != "" && Trim(a + c, BLANKS)[0] == a[0]
  {
    var i, j := TrimMiddle(a + c, BLANKS);
    assert (a + c)[0] == a[0];
  }
}
