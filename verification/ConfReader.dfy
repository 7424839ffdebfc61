// Reading configuration text: physical lines, continuations, and what each complete line says.
module ConfReader {
  import opened ConfText

  // Size of the buffer that ConfSimple::parseinput reads a line into.
  const LL := 2048

  // The input stream and the parser's line, which only matters while appending.
  datatype Reader = Reader(rest: string, good: bool, appending: bool, line: string)

  datatype Event = Remark(text: string) | Header(key: string) | Assign(nm: string, value: string)

  // One round of the parse loop: what it reports, and whether it was the last.
  datatype Turn = Turn(events: seq<Event>, next: Reader, stop: bool)

  datatype Raw = Raw(line: string, rest: string, good: bool)

  // istream::getline(cline, LL - 1). A stream that hit its end, or a line too long for the
  // buffer, is never good again.
  function GetLine(rest: string, good: bool): Raw {
    if !good then Raw("", rest, false)
    else
      var n := IndexOf(rest, '\n');
      if n > LL - 2 then Raw(rest[..LL - 2], rest[LL - 2..], false)
      else if n == |rest| then Raw(rest, "", false)
      else Raw(rest[..n], rest[n + 1..], true)
  }

  // The buffer as a C string.
  function CString(s: string): string { s[..IndexOf(s, '\0')] }

  function StripEol(s: string): (r: string)
    ensures |r| <= |s|
  {
    if s != "" && s[|s| - 1] in "\n\r" then StripEol(s[..|s| - 1]) else s
  }

  // A complete line that is neither blank nor starts with '#'.
  function Classify(line: string): Event
    requires line != ""
  {
    if line[0] == '[' then Header(Trim(line, BRACKETS))
    else
      var eq := IndexOf(line, '=');
      if eq == |line| then Remark(line)
      else
        var nm := Trim(line[..eq], BLANKS);
        if nm == "" then Remark(line) else Assign(nm, Trim(line[eq + 1..], BLANKS))
  }

  // The logical line after reading text.
  function Joined(r: Reader, text: string): string {
    Trim(if r.appending then r.line + text else text, BLANKS)
  }

  // What the loop makes of its logical line. A blank or '#' line leaves appending alone.
  function Digest(r: Reader, line: string, rest: string, good: bool): Turn {
    if line == "" || line[0] == '#' then
      if !good then Turn([], r, true)
      else Turn([Remark(line)], Reader(rest, good, r.appending, if r.appending then line else ""), false)
    else if line[|line| - 1] == '\\' then
      Turn([], Reader(rest, good, true, line[..|line| - 1]), false)
    else
      var e := Classify(line);
      Turn([e], Reader(rest, good, false, ""), !good && e.Assign?)
  }

  function ReadLine(r: Reader): Turn {
    var raw := GetLine(r.rest, r.good);
    Digest(r, Joined(r, StripEol(CString(raw.line))), raw.rest, raw.good)
  }

  // What is left to read: the stream first, then the line being assembled.
  function StreamLeft(r: Reader): nat { if r.good then |r.rest| + 1 else 0 }

  function LineLeft(r: Reader): nat { if r.appending then |r.line| + 1 else 0 }

  lemma {:induction false} TrimShrinks(s: string, ws: string)
    ensures |Trim(s, ws)| <= |s|
  {
    var i, j := TrimMiddle(s, ws);
  }

  // Every round of the loop that is not the last gets closer to the end: it eats some of the
  // stream, or, after the end of the stream, some of the line.
  lemma LoopShrinks(r: Reader)
    requires !ReadLine(r).stop
    ensures var n := ReadLine(r).next;
            StreamLeft(n) < StreamLeft(r) || (StreamLeft(n) == StreamLeft(r) && LineLeft(n) < LineLeft(r))
  {
    if !r.good {
      assert StripEol(CString("")) == "";
      if r.appending {
        assert r.line + "" == r.line;
        TrimShrinks(r.line, BLANKS);
      }
    }
  }

  // Everything the loop reports, to the end of the input.
  function Events(r: Reader): seq<Event>
    decreases StreamLeft(r), LineLeft(r)
  {
    var turn := ReadLine(r);
    if turn.stop then turn.events
    else
      LoopShrinks(r);
      turn.events + Events(turn.next)
  }

  function Open(text: string): Reader { Reader(text, true, false, "") }
}
