// A configuration as a file: the events that make it up, and the text of those events.
module ConfFile {
  import opened ConfReader
  import opened ConfWriter
  import opened ConfStore
  import opened ConfAgreement

  // --- writing ---

  function NextSection(line: Line, sk: string): string {
    if line.Key? then line.key else sk
  }

  // Erased sections and variables leave lines in the order, for which nothing is written.
  function ShowLine(line: Line, sk: string, m: Submaps): seq<Event> {
    match line
    case Comment(t) => [Remark(t)]
    case Key(k) => if k in m then [Header(k)] else []
    case Var(nm) => if Live(m, sk, nm) then [Assign(nm, m[sk][nm])] else []
  }

  function Show(order: seq<Line>, sk: string, m: Submaps): seq<Event> {
    if order == [] then []
    else ShowLine(order[0], sk, m) + Show(order[1..], NextSection(order[0], sk), m)
  }

  function Written(c: Conf): seq<Event> { Show(c.order, "", c.submaps) }

  function WriteText(c: Conf): string { Text(Written(c)) }

  // --- parsing ---

  function LoadOne(e: Event, sk: string, c: Conf): (r: Conf)
    requires Keyed(c)
    ensures Keyed(r)
  {
    match e
    case Remark(t) => c.(order := c.order + [Comment(t)])
    case Header(k) => c
    case Assign(nm, v) =>
      SetKeepsKeyed(c, nm, v, sk, true);
      Set(c, nm, v, sk, true)
  }

  function SectionOf(e: Event, sk: string): string {
    if e.Header? then e.key else sk
  }

  // sk is the section that the events start in.
  function Load(events: seq<Event>, sk: string, c: Conf): (r: Conf)
    requires Keyed(c)
    ensures Keyed(r)
    decreases |events|
  {
    if events == [] then c
    else Load(events[1..], SectionOf(events[0], sk), LoadOne(events[0], sk, c))
  }

  function Parse(text: string): Conf { Load(Events(Open(text)), "", EMPTY) }

  // A new variable of a section whose lines are not the last ones: its line ends up among
  // those of another section.
  predicate Misplaces(e: Event, sk: string, c: Conf) {
    e.Assign? && Settable(e.value) && !Live(c.submaps, sk, e.nm) && LastSection(WithKey(c, sk)) != sk
  }

  // Some section is reopened for a new variable.
  predicate Reopens(events: seq<Event>, sk: string, c: Conf)
    requires Keyed(c)
    decreases |events|
  {
    events != [] &&
    (Misplaces(events[0], sk, c) || Reopens(events[1..], SectionOf(events[0], sk), LoadOne(events[0], sk, c)))
  }

  // The same said of the events alone: seen are the variables set so far, with their sections.
  predicate Reopened(events: seq<Event>, sk: string, seen: seq<(string, string)>) {
    events != [] &&
    var e := events[0];
    if e.Assign? && Settable(e.value) then
      || ((sk, e.nm) !in seen && Newest(seen + [(sk, e.nm)]) != sk)
      || Reopened(events[1..], sk, seen + [(sk, e.nm)])
    else Reopened(events[1..], SectionOf(e, sk), seen)
  }

  predicate HasSection(seen: seq<(string, string)>, sk: string) {
    exists i :: 0 <= i < |seen| && seen[i].0 == sk
  }

  // The section whose first variable came last; "" if all are global.
  function Newest(seen: seq<(string, string)>): string {
    if seen == [] then ""
    else
      var before, sk := seen[..|seen| - 1], seen[|seen| - 1].0;
      if sk == "" || HasSection(before, sk) then Newest(before) else sk
  }

  function LastSection(order: seq<Line>): (r: string)
    ensures r == SectionAfter(order, "")
    decreases |order|
  {
    if order == [] then ""
    else if order[|order| - 1].Key? then order[|order| - 1].key
    else LastSection(order[..|order| - 1])
  }
}
