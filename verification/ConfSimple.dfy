// The configuration object: a map of maps of values, and the lines in presentation order.
module ConfSimple {
  import opened Wrappers
  import opened ConfText
  import opened ConfReader
  import opened ConfWriter
  import Store = ConfStore
  import opened ConfAgreement
  import opened ConfFile

  datatype Status = Error | ReadOnly | ReadWrite

  // What get finds.
  function Lookup(m: Store.Submaps, nm: string, sk: string): Option<string> {
    if Store.Live(m, sk, nm) then Some(m[sk][nm]) else None
  }

  class ConfSimple {
    var status: Status
    var submaps: Store.Submaps
    var order: seq<Store.Line>

    ghost function State(): Store.Conf
      reads this
    {
      Store.Conf(submaps, order)
    }

    ghost predicate Valid()
      reads this
    {
      Store.Keyed(State()) && Store.NoEmpty(submaps)
    }

    predicate Ok()
      reads this
    {
      status != Error
    }

    constructor (text: string, readonly: bool)
      ensures Valid() && State() == Parse(text)
      ensures status == if readonly then ReadOnly else ReadWrite
    {
      status := if readonly then ReadOnly else ReadWrite;
      submaps, order := map[], [];
      new;
      ParseInput(text);
    }

    // --- reading ---

    method Get(nm: string, sk: string) returns (r: Option<string>)
      ensures r == if Ok() then Lookup(submaps, nm, sk) else None
    {
      if !Ok() {
        return None;
      }
      if sk !in submaps {
        return None;
      }
      if nm !in submaps[sk] {
        return None;
      }
      return Some(submaps[sk][nm]);
    }

    // --- changing ---

    // std::find over m_order.
    method Find(lines: seq<Store.Line>, from: nat, to: nat, l: Store.Line) returns (i: nat)
      requires from <= to <= |lines|
      ensures from <= i <= to
      ensures forall k | from <= k < i :: lines[k] != l
      ensures i < to ==> lines[i] == l
    {
      i := from;
      while i < to && lines[i] != l
        invariant from <= i <= to
        invariant forall k | from <= k < i :: lines[k] != l
      {
        i := i + 1;
      }
    }

    // The end of i_set: a line for nm at the end of the zone of sk.
    method AddLine(nm: string, sk: string)
      requires sk == "" || Store.Key(sk) in order
      modifies this`order
      ensures order == Store.InsertVar(old(order), nm, sk)
    {
      var start := 0;
      if sk != "" {
        start := Find(order, 0, |order|, Store.Key(sk));
        if start == |order| {
          // abort()
          assert false;
        }
        FoundKey(order, sk, start);
        start := start + 1;
      }
      var fin := start;
      while fin < |order| && !order[fin].Key?
        invariant start <= fin <= |order|
        invariant forall k | start <= k < fin :: !order[k].Key?
      {
        fin := fin + 1;
      }
      FoundNext(order, start, fin);
      var at := Find(order, start, fin, Store.Var(nm));
      FoundIn(order, start, fin, at, Store.Var(nm));
      if at == fin {
        order := order[..fin] + [Store.Var(nm)] + order[fin..];
      }
    }

    // Internal set: init is set while parsing.
    method ISet(nm: string, value: string, sk: string, init: bool) returns (done: bool)
      requires Valid()
      modifies this`submaps, this`order
      ensures Valid()
      ensures done == Store.Settable(value)
      ensures State() == Store.Set(old(State()), nm, value, sk, init)
    {
      if '\n' in value || '\r' in value {
        return false;
      }
      ghost var c := State();
      SetKeepsKeyed(c, nm, value, sk, init);
      SetNoEmpty(c, nm, value, sk, init);
      var existing := false;
      if sk !in submaps {
        submaps := submaps[sk := map[nm := value]];
        if sk != "" {
          var i := Find(order, 0, |order|, Store.Key(sk));
          if i == |order| {
            order := order + [Store.Key(sk)];
          }
        }
      } else {
        existing := nm in submaps[sk];
        submaps := submaps[sk := submaps[sk][nm := value]];
      }
      if existing {
        return true;
      }
      if init {
        order := order + [Store.Var(nm)];
        return true;
      }
      AddLine(nm, sk);
      return true;
    }

    method Set(nm: string, value: string, sk: string) returns (r: bool)
      requires Valid()
      modifies this`submaps, this`order
      ensures Valid()
      ensures r <==> status == ReadWrite && Store.Settable(value)
      ensures State() == if status == ReadWrite then Store.Set(old(State()), nm, value, sk, false) else old(State())
    {
      if status != ReadWrite {
        return false;
      }
      r := ISet(nm, value, sk, false);
    }

    method Erase(nm: string, sk: string) returns (r: bool)
      requires Valid()
      modifies this`submaps
      ensures Valid()
      ensures r <==> status == ReadWrite && sk in old(submaps)
      ensures State() == if status == ReadWrite then Store.Erase(old(State()), nm, sk) else old(State())
    {
      if status != ReadWrite {
        return false;
      }
      if sk !in submaps {
        return false;
      }
      DropLive(submaps, sk, nm);
      var sub := submaps[sk] - {nm};
      submaps := if sub == map[] then submaps - {sk} else submaps[sk := sub];
      return true;
    }

    method EraseKey(sk: string) returns (r: bool)
      requires Valid()
      modifies this`submaps
      ensures Valid()
      ensures r == Ok()
      ensures State() == if status == ReadWrite then Store.EraseKey(old(State()), sk) else old(State())
    {
      if Ok() && sk in submaps {
        NoneLess(submaps, sk);
        EraseAll(submaps[sk].Keys, sk);
      }
      return Ok();
    }

    method EraseAll(all: set<string>, sk: string)
      requires Valid() && sk in submaps
      modifies this`submaps
      ensures Valid()
      ensures submaps == if status == ReadWrite then Without(old(submaps), sk, all) else old(submaps)
    {
      var names := all;
      ghost var done := {};
      NoneLess(submaps, sk);
      while names != {}
        invariant Valid() && all - names == done && names <= all
        invariant submaps == if status == ReadWrite then Without(old(submaps), sk, done) else old(submaps)
        decreases |names|
      {
        var nm :| nm in names;
        OneLess(old(submaps), sk, done, nm);
        var _ := Erase(nm, sk);
        names, done := names - {nm}, done + {nm};
      }
      assert done == all;
    }

    // --- writing ---

    // One round of the loop of write(ostream&); sk is the section so far.
    method PrintLine(line: Store.Line, sk: string) returns (text: string, sk1: string)
      requires Ok()
      ensures text == Text(ShowLine(line, sk, submaps)) && sk1 == NextSection(line, sk)
    {
      TextOne(ShowLine(line, sk, submaps));
      text, sk1 := "", sk;
      match line {
        case Comment(t) =>
          text := t + "\n";
        case Key(k) =>
          sk1 := k;
          if k in submaps {
            text := "[" + k + "]" + "\n";
          }
        case Var(nm) =>
          var value := Get(nm, sk);
          if value.Some? {
            text := VarPrinter(nm, value.value);
          }
      }
    }

    // write(ostream&).
    method WriteTo() returns (ok: bool, out: string)
      ensures ok == Ok()
      ensures out == if Ok() then WriteText(State()) else ""
    {
      out := "";
      if !Ok() {
        return false, "";
      }
      var sk := "";
      ghost var goal := WriteText(State());
      for i := 0 to |order|
        invariant out + Text(Show(order[i..], sk, submaps)) == goal
      {
        ShowAt(order, i, out, sk, submaps);
        var text, sk1 := PrintLine(order[i], sk);
        out, sk := out + text, sk1;
      }
      assert order[|order|..] == [];
      ok := true;
    }

    // --- parsing ---

    // parseinput on a complete line that is neither blank nor a '#' line.
    method Digested(line: string, key: string) returns (submapkey: string, isVar: bool)
      requires Valid() && line != ""
      modifies this`submaps, this`order
      ensures Valid()
      ensures State() == LoadOne(Classify(line), key, old(State()))
      ensures submapkey == SectionOf(Classify(line), key) && isVar == Classify(line).Assign?
    {
      submapkey, isVar := key, false;
      if line[0] == '[' {
        submapkey := TrimString(line, BRACKETS);
        return;
      }
      var eqpos := IndexOf(line, '=');
      if eqpos == |line| {
        order := order + [Store.Comment(line)];
        return;
      }
      var nm := TrimString(line[..eqpos], BLANKS);
      var val := TrimString(line[eqpos + 1..], BLANKS);
      if |nm| == 0 {
        order := order + [Store.Comment(line)];
        return;
      }
      isVar := true;
      var _ := ISet(nm, val, submapkey, true);
    }

    method ChopEol(buffer: string) returns (cline: string)
      ensures cline == StripEol(buffer)
    {
      cline := buffer;
      while cline != "" && cline[|cline| - 1] in "\n\r"
        invariant StripEol(cline) == StripEol(buffer)
        decreases |cline|
      {
        cline := cline[..|cline| - 1];
      }
    }

    method ParseInput(input: string)
      requires Valid()
      modifies this`submaps, this`order
      ensures Valid()
      ensures State() == Load(Events(Open(input)), "", old(State()))
    {
      var submapkey, appending, line, eof, rest := "", false, "", false, input;
      ghost var r := Open(input);
      ghost var goal := Load(Events(r), "", State());
      while true
        invariant Valid() && r == Reader(rest, !eof, appending, if appending then line else "")
        invariant Load(Events(r), submapkey, State()) == goal
        decreases StreamLeft(r), LineLeft(r)
      {
        var raw := GetLine(rest, !eof);
        var cline := ChopEol(CString(raw.line));
        rest, eof := raw.rest, !raw.good;
        if appending {
          line := line + cline;
        } else {
          line := cline;
        }
        line := TrimString(line, BLANKS);
        ghost var turn := ReadLine(r);
        assert turn == Digest(r, line, rest, !eof);
        OneTurn(r, submapkey, State());
        if line == "" || line[0] == '#' {
          if eof {
            return;
          }
          assert turn.events == [Remark(line)];
          order := order + [Store.Comment(line)];
        } else if line[|line| - 1] == '\\' {
          line := line[..|line| - 1];
          appending := true;
        } else {
          appending := false;
          var isVar: bool;
          submapkey, isVar := Digested(line, submapkey);
          if isVar && eof {
            return;
          }
        }
        r := turn.next;
      }
    }
  }

  // m without the given names of section sk.
  ghost function Without(m: Store.Submaps, sk: string, names: set<string>): Store.Submaps
    requires sk in m
  {
    var sub := m[sk] - names;
    if sub == map[] then m - {sk} else m[sk := sub]
  }

  // --- proof steps of the loops above ---

  lemma NoneLess(m: Store.Submaps, sk: string)
    requires sk in m && m[sk] != map[]
    ensures Without(m, sk, {}) == m && Without(m, sk, m[sk].Keys) == m - {sk}
  {
    assert m[sk] - {} == m[sk] && m[sk] - m[sk].Keys == map[];
  }

  lemma OneLess(m: Store.Submaps, sk: string, names: set<string>, nm: string)
    requires sk in m
    ensures var m1 := Without(m, sk, names);
            Without(m, sk, names + {nm}) == if sk in m1 then Store.DropValue(m1, sk, nm) else m1
  {
    var sub := m[sk] - names;
    assert m[sk] - (names + {nm}) == sub - {nm};
  }

  lemma {:induction false} FoundKey(lines: seq<Store.Line>, sk: string, i: nat)
    requires i < |lines| && lines[i] == Store.Key(sk) && forall k | 0 <= k < i :: lines[k] != Store.Key(sk)
    ensures Store.FindKey(lines, sk) == i
  {
    if i > 0 {
      assert lines[0] != Store.Key(sk);
      FoundKey(lines[1..], sk, i - 1);
    }
  }

  lemma FoundIn(lines: seq<Store.Line>, start: nat, fin: nat, at: nat, l: Store.Line)
    requires start <= at <= fin <= |lines| && (at < fin ==> lines[at] == l)
    requires forall k | start <= k < at :: lines[k] != l
    ensures l in lines[start..fin] <==> at < fin
  {
    if at < fin { assert lines[start..fin][at - start] == l; }
  }

  lemma {:induction false} FoundNext(lines: seq<Store.Line>, start: nat, i: nat)
    requires start <= i <= |lines| && (i < |lines| ==> lines[i].Key?)
    requires forall k | start <= k < i :: !lines[k].Key?
    ensures Store.NextKey(lines, start) == i
    decreases i - start
  {
    if start < i {
      FoundNext(lines, start + 1, i);
    }
  }

  lemma TextOne(events: seq<Event>)
    requires |events| <= 1
    ensures Text(events) == if events == [] then "" else EventText(events[0])
  {
    if events != [] {
      assert events[1..] == [];
      assert EventText(events[0]) + "" == EventText(events[0]);
    }
  }

  lemma ShowText(lines: seq<Store.Line>, sk: string, m: Store.Submaps)
    requires lines != []
    ensures Text(Show(lines, sk, m))
         == Text(ShowLine(lines[0], sk, m)) + Text(Show(lines[1..], NextSection(lines[0], sk), m))
  {
    var shown, more := ShowLine(lines[0], sk, m), Show(lines[1..], NextSection(lines[0], sk), m);
    TextOne(shown);
    if shown == [] {
      assert shown + more == more;
      assert "" + Text(more) == Text(more);
    } else {
      assert (shown + more)[1..] == more;
    }
  }

  // What one round of the write loop adds.
  lemma ShowAt(lines: seq<Store.Line>, i: nat, out: string, sk: string, m: Store.Submaps)
    requires i < |lines|
    ensures out + Text(Show(lines[i..], sk, m))
         == out + Text(ShowLine(lines[i], sk, m)) + Text(Show(lines[i + 1..], NextSection(lines[i], sk), m))
  {
    assert lines[i..][1..] == lines[i + 1..];
    ShowText(lines[i..], sk, m);
  }

  // What one round of the parse loop contributes to the result.
  lemma OneTurn(r: Reader, sk: string, c: Store.Conf)
    requires Store.Keyed(c)
    ensures var turn := ReadLine(r);
            && |turn.events| <= 1
            && (turn.events == [] ==> Load(Events(r), sk, c) == if turn.stop then c else Load(Events(turn.next), sk, c))
            && (turn.events != [] ==>
                  var c1, sk1 := LoadOne(turn.events[0], sk, c), SectionOf(turn.events[0], sk);
                  Load(Events(r), sk, c) == if turn.stop then c1 else Load(Events(turn.next), sk1, c1))
            && (!turn.stop ==>
                  StreamLeft(turn.next) < StreamLeft(r)
                  || (StreamLeft(turn.next) == StreamLeft(r) && LineLeft(turn.next) < LineLeft(r)))
  {
    var turn := ReadLine(r);
    if turn.stop {
      assert turn.events != [] ==> turn.events[1..] == [];
    } else {
      LoopShrinks(r);
      assert Events(r) == turn.events + Events(turn.next);
      if turn.events == [] {
        assert Events(r) == Events(turn.next);
      } else {
        assert Events(r)[1..] == Events(turn.next);
      }
    }
  }
}
