// The sender object: packet sizes from the audio format, and the timer callback.
module PcmSender {
  import opened Words
  import opened Pacing

  const SPEED_NORMAL := 100
  const MAX_PACKET_BYTES := 4096

  // 32-bit multiplication.
  function Product(a: nat, b: nat): (r: nat)
    ensures a * b < TWO32 ==> r == a * b
  {
    UInt32(a * b)
  }

  lemma ProductWraps(a: nat, b: nat)
    ensures Product(a, b) < 0x1_0000_0000 && (a * b - Product(a, b)) % 0x1_0000_0000 == 0
  {
  }

  // How many times d goes into a.
  function Times(a: nat, d: nat): (r: nat)
    requires d >= 1
    ensures r * d <= a < (r + 1) * d
    ensures r <= a
  {
    assert a == a / d * d + a % d;
    a / d
  }

  function Capped(bytes: nat): nat { if bytes > MAX_PACKET_BYTES then MAX_PACKET_BYTES else bytes }

  // The bytes of one period at normal speed.
  function NormBytes(rate: nat, frameBytes: nat): nat {
    Capped(Product(Product(rate, frameBytes), PERIOD_MS) / 1000)
  }

  // How long so many frames last, in microseconds.
  function PacketTime(rate: nat, frames: nat): nat
    requires rate >= 10
  {
    UInt32(Times(Product(frames, 1000000), rate / 10) + 5) / 10
  }

  // An audio format whose bytes per second fit the arithmetic.
  predicate Playable(rate: nat, frameBytes: nat) {
    rate >= 10 && frameBytes >= 1 && rate * frameBytes * PERIOD_MS < TWO32
  }

  // A packet holds as many whole frames as fit the period and the size limit.
  lemma MostFrames(rate: nat, frameBytes: nat)
    requires Playable(rate, frameBytes)
    ensures var frames := Times(NormBytes(rate, frameBytes), frameBytes);
            && frames * 100 <= rate && frames * frameBytes <= 4096
            && ((frames + 1) * 100 > rate || (frames + 1) * frameBytes > 4096)
  {
    var norm := NormBytes(rate, frameBytes);
    var frames := Times(norm, frameBytes);
    var bytes := BytesPerPeriod(rate, frameBytes);
    FramesFit(rate, frameBytes, frames, bytes);
    if (frames + 1) * frameBytes <= MAX_PACKET_BYTES {
      OneMoreFrame(rate, frameBytes, frames, bytes);
    }
  }

  lemma BytesPerPeriod(rate: nat, frameBytes: nat) returns (bytes: nat)
    requires Playable(rate, frameBytes)
    ensures bytes * 100 <= rate * frameBytes < (bytes + 1) * 100
    ensures NormBytes(rate, frameBytes) == Capped(bytes)
  {
    var total := rate * frameBytes;
    assert total <= total * PERIOD_MS;
    bytes := total * PERIOD_MS / 1000;
  }

  lemma FramesFit(rate: nat, frameBytes: nat, frames: nat, bytes: nat)
    requires frameBytes >= 1 && frames * frameBytes <= bytes && bytes * 100 <= rate * frameBytes
    ensures frames * 100 <= rate
  {
    assert frames * 100 * frameBytes == frames * frameBytes * 100;
    ScaledBack(frames * 100, rate, frameBytes);
  }

  lemma OneMoreFrame(rate: nat, frameBytes: nat, frames: nat, bytes: nat)
    requires frameBytes >= 1 && bytes < (frames + 1) * frameBytes && rate * frameBytes < (bytes + 1) * 100
    ensures rate < (frames + 1) * 100
  {
    assert (frames + 1) * 100 * frameBytes == (frames + 1) * frameBytes * 100;
    ScaledBack(rate + 1, (frames + 1) * 100, frameBytes);
  }

  lemma ScaledBack(a: int, b: int, d: nat)
    requires d >= 1
    ensures a * d < b * d + d ==> a <= b
  {
    if a > b {
      Scaled(b + 1, a, d);
    }
  }

  lemma Scaled(a: int, b: int, d: nat)
    requires a <= b
    ensures a * d <= b * d
  {
  }

  // The duration of the frames in microseconds, half a microsecond rounded up.
  function Duration(rate: nat, frames: nat): nat
    requires rate >= 1
  {
    Times(2 * (frames * 1000000) + rate, 2 * rate)
  }

  // The packet time does not overflow and is never more than the period.
  lemma TimeParts(rate: nat, frames: nat) returns (x: nat)
    requires rate >= 10 && frames <= MAX_PACKET_BYTES && frames * 100 <= rate
    ensures x * (rate / 10) <= frames * 1000000 < (x + 1) * (rate / 10)
    ensures PacketTime(rate, frames) == (x + 5) / 10 <= 10000
  {
    var tenth, us := rate / 10, frames * 1000000;
    assert frames * 10 <= tenth && us <= tenth * 100000;
    x := Times(us, tenth);
    ScaledBack(x, 100000, tenth);
  }

  // The packet time is the duration if and only if rounding the rate down to a multiple of ten does
  // not make the quotient too large; otherwise the packet time is longer.
  lemma ExactTimeIff(rate: nat, frames: nat)
    requires rate >= 10 && frames <= MAX_PACKET_BYTES && frames * 100 <= rate
    ensures var t := Duration(rate, frames);
            && t <= PacketTime(rate, frames)
            && (PacketTime(rate, frames) == t <==> frames * 1000000 < (10 * t + 5) * (rate / 10))
  {
    var us, t, d := frames * 1000000, PacketTime(rate, frames), Duration(rate, frames);
    var x := TimeParts(rate, frames);
    Rounding(rate, us, x, t);
    DurationMost(rate, frames, t);
    QuotientBelow(us, rate / 10, x, 10 * d + 5);
  }

  // It is the number of microseconds nearest to what a tenth of the rate, rounded down, makes of the
  // frames.
  lemma NearestTime(rate: nat, frames: nat, t: nat)
    requires rate >= 10 && frames <= MAX_PACKET_BYTES && frames * 100 <= rate
    ensures t == PacketTime(rate, frames)
            <==> (10 * t - 5) * (rate / 10) <= frames * 1000000 < (10 * t + 5) * (rate / 10)
  {
    var us, tenth := frames * 1000000, rate / 10;
    var x := TimeParts(rate, frames);
    QuotientBelow(us, tenth, x, 10 * t + 5);
    if t > 0 {
      QuotientBelow(us, tenth, x, 10 * t - 5);
    } else {
      assert (10 * t - 5) * tenth <= 0;
    }
  }

  lemma DurationMost(rate: nat, frames: nat, t: nat)
    requires rate >= 1 && 2 * (frames * 1000000) + rate < (t + 1) * (2 * rate)
    ensures Duration(rate, frames) <= t
  {
    ScaledBack(Duration(rate, frames), t, 2 * rate);
  }

  lemma QuotientBelow(us: nat, d: nat, x: nat, m: nat)
    requires x * d <= us < (x + 1) * d
    ensures x < m <==> us < m * d
  {
    if x < m {
      Scaled(x + 1, m, d);
    } else {
      Scaled(m, x, d);
    }
  }

  // In particular whenever ten divides the rate. It is never more than the period.
  lemma TimeOfFrames(rate: nat, frames: nat)
    requires rate >= 10 && frames <= MAX_PACKET_BYTES && frames * 100 <= rate
    ensures var t := PacketTime(rate, frames);
            && t <= 10000
            && 2 * frames * 1000000 + rate < (t + 1) * (2 * rate)
            && (rate % 10 == 0 ==> t == Duration(rate, frames) && t * (2 * rate) <= 2 * frames * 1000000 + rate)
  {
    var us, d := frames * 1000000, Duration(rate, frames);
    var x := TimeParts(rate, frames);
    Rounding(rate, us, x, PacketTime(rate, frames));
    if rate % 10 == 0 {
      ExactTimeIff(rate, frames);
      Expand(d, rate);
      TenTenths(10 * d + 5, rate);
    }
  }

  lemma Rounding(rate: nat, us: nat, x: nat, t: nat)
    requires us < (x + 1) * (rate / 10) && t == (x + 5) / 10
    ensures 2 * us + rate < (t + 1) * (2 * rate)
  {
    Scaled(x + 1, 10 * t + 5, rate / 10);
    TenTenths(10 * t + 5, rate);
    Expand(t, rate);
  }

  lemma TenTenths(a: int, rate: nat)
    ensures a >= 0 ==> 10 * (a * (rate / 10)) <= a * rate
    ensures rate % 10 == 0 ==> 10 * (a * (rate / 10)) == a * rate
  {
    var tenth := rate / 10;
    assert 10 * (a * tenth) == a * (10 * tenth);
    if a >= 0 {
      assert a * (rate - 10 * tenth) >= 0;
      assert a * rate == a * (rate - 10 * tenth) + a * (10 * tenth);
    }
  }

  lemma Expand(t: nat, rate: nat)
    ensures t * (2 * rate) == 2 * (t * rate) && (t + 1) * (2 * rate) == 2 * (t * rate) + 2 * rate
    ensures (10 * t + 5) * rate == 10 * (t * rate) + 5 * rate
  {
    assert 10 * t * rate == 10 * (t * rate);
  }

  class PcmSender {
    const rate: nat
    const frameBytes: nat
    const paced: bool
    var speed: nat
    var packetBytes: nat
    var packetFrames: nat
    var packetTime: nat
    var paused: bool
    var lastTimeUs: nat
    var timeOffsetUs: int
    var timerMs: nat

    ghost function State(): Pacer
      reads this
    {
      Pacer(paused, lastTimeUs, timeOffsetUs, timerMs)
    }

    constructor (rate: nat, frameBytes: nat, paced: bool)
      requires rate >= 10 && frameBytes >= 1
      ensures this.rate == rate && this.frameBytes == frameBytes && this.paced == paced
      ensures speed == SPEED_NORMAL && State() == FRESH
      ensures !paused && lastTimeUs == 0 && timeOffsetUs == 0 && timerMs == 10
      ensures packetFrames == Times(NormBytes(rate, frameBytes), frameBytes)
      ensures packetTime == PacketTime(rate, packetFrames)
      ensures packetBytes == packetFrames * frameBytes <= MAX_PACKET_BYTES
    {
      this.rate, this.frameBytes, this.paced := rate, frameBytes, paced;
      speed, paused, lastTimeUs, timeOffsetUs := SPEED_NORMAL, false, 0, 0;
      // Start asks for the first callback
      timerMs := PERIOD_MS;
      packetBytes, packetFrames, packetTime := 0, 0, 0;
      new;
      CalculatePacketBytes();
    }

    method CalculatePacketBytes()
      requires rate >= 10 && frameBytes >= 1
      modifies this`packetBytes, this`packetFrames, this`packetTime
      ensures packetTime == PacketTime(rate, Times(NormBytes(rate, frameBytes), frameBytes))
      ensures packetBytes == packetFrames * frameBytes <= MAX_PACKET_BYTES
      ensures speed == SPEED_NORMAL ==> packetFrames == Times(NormBytes(rate, frameBytes), frameBytes)
    {
      var normBytes := Product(Product(rate, frameBytes), PERIOD_MS) / 1000;
      if normBytes > MAX_PACKET_BYTES {
        normBytes := MAX_PACKET_BYTES;
      }
      var normSamples := Times(normBytes, frameBytes);
      packetTime := UInt32(Times(Product(normSamples, 1000000), rate / 10) + 5) / 10;
      var bytes := Product(normBytes, speed) / 100;
      if bytes > MAX_PACKET_BYTES {
        bytes := MAX_PACKET_BYTES;
      }
      packetFrames := Times(bytes, frameBytes);
      packetBytes := Product(packetFrames, frameBytes);
    }

    method Pause()
      modifies this`paused, this`lastTimeUs, this`timeOffsetUs, this`timerMs
      ensures old(paused) ==> !paused && lastTimeUs == 0 && timeOffsetUs == 0 && timerMs == 10
      ensures !old(paused) ==> State() == old(State()).(paused := true)
      ensures State() == Toggle(old(State()))
    {
      if paused {
        paused := false;
        lastTimeUs := 0;
        timeOffsetUs := 0;
        timerMs := PERIOD_MS;
      } else {
        paused := true;
      }
    }

    // A callback at time now. Reading the audio may come to its end; the timer goes on.
    method TimerExpired(now: nat, data: bool) returns (sent: bool)
      modifies this`paused, this`lastTimeUs, this`timeOffsetUs, this`timerMs
      ensures sent <==> !paused && data
      ensures State() == if paced || old(paused) then Tick(old(State()), now, packetTime) else old(State()).(timer := 2)
      // In a callback that measures an interval the offset and the timeout follow from it
      ensures paced && !old(paused) && 0 < old(lastTimeUs) < now ==>
                && timeOffsetUs == Int32(old(timeOffsetUs) + packetTime - (now - old(lastTimeUs)))
                && Timeout(timeOffsetUs, timerMs)
      // One without forgets nothing, and asks for a period
      ensures paced && !old(paused) && !(0 < old(lastTimeUs) < now) ==>
                timeOffsetUs == old(timeOffsetUs) && timerMs == 10
      ensures paced && !old(paused) ==> lastTimeUs == now
    {
      if !paused && 0 < lastTimeUs < now { TickAdds(State(), now, packetTime); }
      sent := false;
      if !paused {
        sent := data;
        if !paced {
          timerMs := 2;
        } else {
          if lastTimeUs != 0 && lastTimeUs < now {
            var newTimerMs := PERIOD_MS;
            var diff := Int32(Int32(now - lastTimeUs) - packetTime);
            timeOffsetUs := Int32(timeOffsetUs - diff);
            if timeOffsetUs < -1000 {
              var timeOffsetMs := Quotient(timeOffsetUs, 1000);
              if timeOffsetMs < 1 - PERIOD_MS {
                newTimerMs := 1;
              } else {
                newTimerMs := PERIOD_MS + timeOffsetMs;
              }
            } else if timeOffsetUs > 1000 {
              newTimerMs := PERIOD_MS + 1;
            } else {
              newTimerMs := PERIOD_MS;
            }
            timerMs := newTimerMs;
            TimeoutIff(timeOffsetUs, timerMs);
          } else {
            timerMs := PERIOD_MS;
          }
          lastTimeUs := now;
        }
      }
    }
  }

  // A sender whose packets last at least a millisecond more than the timers are late is never
  // more than a millisecond ahead, nor more than 11 milliseconds and the lateness behind.
  lemma KeepsPace(rate: nat, frameBytes: nat, most: nat, start: nat, lates: seq<nat>)
    requires Playable(rate, frameBytes) && start > 0 && Within(lates, most)
    requires 1000 + most <= PacketTime(rate, Times(NormBytes(rate, frameBytes), frameBytes))
    ensures var packet := PacketTime(rate, Times(NormBytes(rate, frameBytes), frameBytes));
            packet - SLOWEST - most <= Machine(packet, start, lates).offset <= 1000
  {
    MostFrames(rate, frameBytes);
    var frames := Times(NormBytes(rate, frameBytes), frameBytes);
    Scaled(1, frameBytes, frames);
    TimeOfFrames(rate, frames);
    DriftIsBounded(PacketTime(rate, frames), most, start, lates);
  }

  // At 11025 frames per second, 110 frames last 9977 microseconds and the packet time is 9982.
  lemma NotExactAt11025()
    ensures Times(NormBytes(11025, 4), 4) == 110
    ensures PacketTime(11025, 110) > Duration(11025, 110)
  {
    ExactTimeIff(11025, 110);
  }
}
