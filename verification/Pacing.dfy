// The feedback loop of the paced sender: every callback compares the time since the last one with
// the audio time of a packet, and asks for the next callback accordingly. Times are microseconds.
module Pacing {
  import opened Words

  const PERIOD_MS := 10

  // Division that truncates toward zero.
  function Quotient(x: int, d: int): int
    requires d > 0
  {
    if x >= 0 then x / d else -(-x / d)
  }

  // timer is the timeout last asked for, in milliseconds.
  datatype Pacer = Pacer(paused: bool, last: nat, offset: int, timer: nat)

  // The new timeout for an offset from ideal; below 0 the sender is late.
  function NewTimer(offset: int): (ms: nat)
    ensures 1 <= ms <= PERIOD_MS + 1
  {
    if offset < -1000 then
      var ms := Quotient(offset, 1000);
      if ms < 1 - PERIOD_MS then 1 else PERIOD_MS + ms
    else if offset > 1000 then PERIOD_MS + 1
    else PERIOD_MS
  }

  // What the timeout must be: a period within a millisecond of ideal, one millisecond more for a
  // sender further ahead, and for one further behind shorter by the whole milliseconds that it is
  // late, but never less than one.
  ghost predicate Timeout(offset: int, ms: nat) {
    && (ms == 10 <==> -1000 <= offset <= 1000)
    && (ms == 11 <==> offset > 1000)
    && (ms == 1 <==> offset <= -9000)
    && (-9000 < offset < -1000 ==> 1 < ms < 10 && 1000 * (10 - ms) <= -offset < 1000 * (11 - ms))
  }

  lemma TimeoutIff(offset: int, ms: nat)
    ensures Timeout(offset, ms) <==> ms == NewTimer(offset)
  {
  }

  // A callback at time now: the first interval is skipped, and one over which the clock went back.
  function Tick(s: Pacer, now: nat, packet: nat): Pacer {
    if s.paused then s
    else if s.last != 0 && s.last < now then
      var offset := Int32(s.offset - Int32(Int32(now - s.last) - packet));
      Pacer(false, now, offset, NewTimer(offset))
    else s.(last := now, timer := PERIOD_MS)
  }

  function Toggle(s: Pacer): Pacer {
    if s.paused then Pacer(false, 0, 0, PERIOD_MS) else s.(paused := true)
  }

  const FRESH := Pacer(false, 0, 0, PERIOD_MS)

  // --- the offset is a balance ---

  ghost predicate Increasing(times: seq<nat>) {
    times != [] && times[0] > 0 && forall i | 0 < i < |times| :: times[i - 1] < times[i]
  }

  // Callbacks at the given times.
  ghost function AfterTicks(packet: nat, times: seq<nat>): Pacer {
    if times == [] then FRESH
    else Tick(AfterTicks(packet, times[..|times| - 1]), times[|times| - 1], packet)
  }

  lemma Congruent(a: int, b: int)
    ensures Int32(Int32(a) + b) == Int32(a + b)
  {
    var k := (a + TWO31) / TWO32;
    assert Int32(a) == a - k * TWO32;
    Shifted(a + b, k);
  }

  lemma Shifted(x: int, k: int)
    ensures Int32(x - k * TWO32) == Int32(x)
  {
    var q := (x + TWO31) / TWO32;
    assert x - k * TWO32 + TWO31 == Int32(x) + TWO31 + (q - k) * TWO32;
  }

  lemma Negated(a: int, b: int)
    ensures Int32(a - Int32(b)) == Int32(a - b)
  {
    var k := (b + TWO31) / TWO32;
    assert Int32(b) == b - k * TWO32;
    Shifted(a - b, -k);
  }

  lemma TickAdds(s: Pacer, now: nat, packet: nat)
    requires !s.paused && 0 < s.last < now
    ensures Tick(s, now, packet).offset == Int32(s.offset + packet - (now - s.last))
  {
    var d: int := now - s.last;
    Congruent(d, 0 - packet);
    Negated(s.offset, d - packet);
  }

  // The audio time of n packets less the time gone by.
  ghost function Balance(n: int, packet: int, first: int, last: int): int {
    n * packet - (last - first)
  }

  // The offset is the balance since the first packet, as long as 32 bits can hold it.
  lemma {:induction false} OffsetIsBalance(packet: nat, times: seq<nat>)
    requires Increasing(times)
    ensures var s, n := AfterTicks(packet, times), |times| - 1;
            var balance := Balance(n, packet, times[0], times[n]);
            && s.offset == Int32(balance) && s.last == times[n] && !s.paused
            && (s.offset == balance <==> -TWO31 <= balance < TWO31)
  {
    var n := |times| - 1;
    var before := times[..n];
    if n > 0 {
      OffsetIsBalance(packet, before);
      OneMorePacket(AfterTicks(packet, before), n, packet, times[0], times[n]);
    } else {
      assert before == [];
    }
  }

  lemma OneMorePacket(s: Pacer, n: int, packet: nat, first: int, now: nat)
    requires !s.paused && 0 < s.last < now && s.offset == Int32(Balance(n - 1, packet, first, s.last))
    ensures Tick(s, now, packet).offset == Int32(Balance(n, packet, first, now))
  {
    var d: int := now - s.last;
    TickAdds(s, now, packet);
    Congruent(Balance(n - 1, packet, first, s.last), packet - d);
    assert n * packet == (n - 1) * packet + packet;
  }

  // --- the loop closed by a timer that is late ---

  // The offset after callbacks that came late by these amounts, without any bound on numbers.
  ghost function Ideal(packet: nat, lates: seq<nat>): int {
    if lates == [] then 0
    else
      var n := |lates| - 1;
      var offset := Ideal(packet, lates[..n]);
      offset + packet - (1000 * NewTimer(offset) + lates[n])
  }

  // What the program does, from a first packet at time start.
  ghost function Machine(packet: nat, start: nat, lates: seq<nat>): Pacer {
    if lates == [] then Tick(FRESH, start, packet)
    else
      var n := |lates| - 1;
      var s := Machine(packet, start, lates[..n]);
      Tick(s, s.last + 1000 * s.timer + lates[n], packet)
  }

  ghost predicate Within(lates: seq<nat>, most: nat) {
    forall i | 0 <= i < |lates| :: lates[i] <= most
  }

  // One late callback of the program.
  lemma TickIsIdeal(s: Pacer, packet: nat, late: nat)
    requires !s.paused && s.last > 0 && s.timer == NewTimer(s.offset)
    requires -TWO31 <= s.offset + packet - (1000 * s.timer + late) < TWO31
    ensures var s1 := Tick(s, s.last + 1000 * s.timer + late, packet);
            && s1.offset == s.offset + packet - (1000 * s.timer + late)
            && s1.timer == NewTimer(s1.offset) && !s1.paused && s1.last >= s.last
  {
    TickAdds(s, s.last + 1000 * s.timer + late, packet);
  }

  // The program follows the ideal loop as long as the offsets fit 32 bits.
  lemma {:induction false} MachineIsIdeal(packet: nat, start: nat, lates: seq<nat>)
    requires start > 0
    requires forall k | 0 <= k <= |lates| :: -TWO31 <= Ideal(packet, lates[..k]) < TWO31
    ensures var s, o := Machine(packet, start, lates), Ideal(packet, lates);
            s.offset == o && s.timer == NewTimer(o) && !s.paused && s.last >= start
  {
    assert lates[..|lates|] == lates;
    if lates != [] {
      var n := |lates| - 1;
      var before := lates[..n];
      forall k | 0 <= k <= n ensures -TWO31 <= Ideal(packet, before[..k]) < TWO31 {
        assert before[..k] == lates[..k];
      }
      MachineIsIdeal(packet, start, before);
      TickIsIdeal(Machine(packet, start, before), packet, lates[n]);
    }
  }

  const SLOWEST := 11000

  // One round keeps the offset in its band.
  lemma BandKept(packet: nat, most: nat, offset: int, late: nat)
    requires 1000 + most <= packet <= SLOWEST && late <= most
    requires packet - SLOWEST - most <= offset <= Upper(packet)
    ensures packet - SLOWEST - most <= offset + packet - (1000 * NewTimer(offset) + late) <= Upper(packet)
  {
  }

  function Upper(packet: nat): int { if packet > 9000 then packet - 9000 else 0 }

  lemma {:induction false} IdealBand(packet: nat, most: nat, lates: seq<nat>)
    requires 1000 + most <= packet <= SLOWEST && Within(lates, most)
    ensures packet - SLOWEST - most <= Ideal(packet, lates) <= Upper(packet)
  {
    if lates != [] {
      var n := |lates| - 1;
      IdealBand(packet, most, lates[..n]);
      BandKept(packet, most, Ideal(packet, lates[..n]), lates[n]);
    }
  }

  // In every run the program stays in the band.
  lemma DriftIsBounded(packet: nat, most: nat, start: nat, lates: seq<nat>)
    requires start > 0 && 1000 + most <= packet <= SLOWEST && Within(lates, most)
    ensures var s := Machine(packet, start, lates);
            && packet - SLOWEST - most <= s.offset <= Upper(packet)
            && 1 <= s.timer <= PERIOD_MS + 1
  {
    forall k | 0 <= k <= |lates| ensures -TWO31 <= Ideal(packet, lates[..k]) < TWO31 {
      IdealBand(packet, most, lates[..k]);
    }
    MachineIsIdeal(packet, start, lates);
    IdealBand(packet, most, lates);
  }

  // A packet that lasts too long: always ahead, more and more.
  lemma {:induction false} RunsAhead(packet: nat, lates: seq<nat>)
    requires packet > SLOWEST && Within(lates, 0)
    ensures Ideal(packet, lates) >= |lates|
  {
    if lates != [] { RunsAhead(packet, lates[..|lates| - 1]); }
  }

  // A packet too short for the lateness: always behind, more and more.
  lemma {:induction false} FallsBehind(packet: nat, most: nat, lates: seq<nat>)
    requires packet < 1000 + most && forall i | 0 <= i < |lates| :: lates[i] == most
    ensures Ideal(packet, lates) <= -|lates|
  {
    if lates != [] { FallsBehind(packet, most, lates[..|lates| - 1]); }
  }

  ghost predicate Bound(packet: nat, most: nat, b: nat) {
    forall lates | Within(lates, most) :: 0 - b <= Ideal(packet, lates) <= b
  }

  // The offset is bounded over all runs with callbacks late by at most so much exactly when a
  // packet lasts at least the shortest timeout with that lateness, and at most the longest timeout.
  lemma BoundedIff(packet: nat, most: nat)
    ensures (exists b: nat :: Bound(packet, most, b)) <==> 1000 + most <= packet <= SLOWEST
  {
    if 1000 + most <= packet <= SLOWEST {
      var b := SLOWEST + most;
      forall lates | Within(lates, most) ensures 0 - b <= Ideal(packet, lates) <= b {
        IdealBand(packet, most, lates);
      }
      assert Bound(packet, most, b);
    } else {
      forall b: nat ensures !Bound(packet, most, b) {
        var late := if packet > SLOWEST then 0 else most;
        var lates := seq(b + 1, i => late);
        if packet > SLOWEST {
          RunsAhead(packet, lates);
        } else {
          FallsBehind(packet, most, lates);
        }
        assert Within(lates, most);
      }
    }
  }

  // --- pauses ---

  datatype Act = Callback(at: nat) | Pause

  function Do(s: Pacer, a: Act, packet: nat): Pacer {
    match a
    case Callback(at) => Tick(s, at, packet)
    case Pause => Toggle(s)
  }

  ghost function AfterActs(packet: nat, acts: seq<Act>): Pacer {
    if acts == [] then FRESH
    else Do(AfterActs(packet, acts[..|acts| - 1]), acts[|acts| - 1], packet)
  }

  // A callback comes after the timeout last asked for, late by at most so much; the first one
  // after a start and those of a paused sender come whenever they like.
  predicate Timely(s: Pacer, a: Act, most: nat) {
    a.Callback? ==>
      if s.paused then true
      else if s.last == 0 then a.at > 0
      else s.last + 1000 * s.timer <= a.at <= s.last + 1000 * s.timer + most
  }

  ghost predicate TimelyRun(packet: nat, most: nat, acts: seq<Act>) {
    acts == [] ||
    var n := |acts| - 1;
    TimelyRun(packet, most, acts[..n]) && Timely(AfterActs(packet, acts[..n]), acts[n], most)
  }

  // The timeout follows from the offset, which starts at 0.
  ghost predicate Steady(s: Pacer, packet: nat, most: nat) {
    && packet - SLOWEST - most <= s.offset <= Upper(packet)
    && 1 <= s.timer <= PERIOD_MS + 1
    && (!s.paused && s.last == 0 ==> s.offset == 0)
    && (!s.paused && s.last != 0 ==> s.timer == NewTimer(s.offset))
  }

  lemma ActSteady(s: Pacer, a: Act, packet: nat, most: nat)
    requires 1000 + most <= packet <= SLOWEST && Steady(s, packet, most) && Timely(s, a, most)
    ensures Steady(Do(s, a, packet), packet, most)
  {
    if a.Callback? && !s.paused && s.last != 0 {
      var late := a.at - s.last - 1000 * s.timer;
      TickAdds(s, a.at, packet);
      BandKept(packet, most, s.offset, late);
    }
  }

  // However often the sender is paused and goes on, the offset stays in the band.
  lemma {:induction false} DriftWithPauses(packet: nat, most: nat, acts: seq<Act>)
    requires 1000 + most <= packet <= SLOWEST && TimelyRun(packet, most, acts)
    ensures Steady(AfterActs(packet, acts), packet, most)
  {
    if acts != [] {
      var n := |acts| - 1;
      DriftWithPauses(packet, most, acts[..n]);
      ActSteady(AfterActs(packet, acts[..n]), acts[n], packet, most);
    }
  }
}
