/**
 What the reception statistics mean (section 6.4.1 and Appendix A.1 of RFC 3550): the extended
 sequence number, the arithmetic of a report and the echo of sender reports.
 */
module ReceptionStatistics {
  import opened SequenceNumbers
  import opened ReceiverStreams

  // ------------------------------------------------------------------ extended sequence number

  function Extended(s: Stream): int { s.cycles * SEQ_MOD + s.last }

  /** By how much a packet moves the extended highest sequence number. */
  function Advance(s: Stream, sn: U16): nat {
    if Behind(s.last, sn) then 0 else Low16(sn - s.last)
  }

  /** The packet starts a cycle that the 16-bit cycle count can no longer hold. */
  predicate CycleOverflow(s: Stream, sn: U16) {
    sn - s.last < -0x0FFF && s.cycles == SEQ_MOD - 1
  }

  /** Exactly unless the cycle count overflows, a packet advances the extended number by `Advance`. */
  lemma ExtendedAdvances(s: Stream, now: int, p: RtpPacket)
    requires s.started && InRange(s)
    ensures InRange(AfterRtp(s, now, p))
    ensures Extended(AfterRtp(s, now, p)) == Extended(s) + Advance(s, p.sequenceNumber)
       <==> !CycleOverflow(s, p.sequenceNumber)
    ensures CycleOverflow(s, p.sequenceNumber) ==> Extended(AfterRtp(s, now, p)) < Extended(s)
  {
  }

  function AfterPackets(s: Stream, packets: seq<(int, RtpPacket)>): Stream {
    if packets == [] then s
    else AfterRtp(AfterPackets(s, packets[..|packets| - 1]), packets[|packets| - 1].0, packets[|packets| - 1].1)
  }

  function Advances(s: Stream, packets: seq<(int, RtpPacket)>): nat {
    if packets == [] then 0
    else
      var before := packets[..|packets| - 1];
      Advances(s, before) + Advance(AfterPackets(s, before), packets[|packets| - 1].1.sequenceNumber)
  }

  /** Over any packets the extended number is the initial one plus every advance, while it fits 32 bits. */
  lemma {:induction false} ExtendedOverRun(s: Stream, packets: seq<(int, RtpPacket)>)
    requires s.started && InRange(s)
    requires Extended(s) + Advances(s, packets) <= MAX_32
    ensures AfterPackets(s, packets).started && InRange(AfterPackets(s, packets))
    ensures Extended(AfterPackets(s, packets)) == Extended(s) + Advances(s, packets)
  {
    if packets != [] {
      var before := packets[..|packets| - 1];
      ExtendedOverRun(s, before);
      ExtendedAdvances(AfterPackets(s, before), packets[|packets| - 1].0, packets[|packets| - 1].1);
    }
  }

  // ------------------------------------------------------------------ arithmetic of one report

  /** All 65536 numbers of a cycle are due: the one state in which the 16-bit span reads as zero. */
  predicate FullCycleDue(s: Stream) { s.last - s.lastReport == SEQ_MOD }

  lemma LossBelowSpan(s: Stream)
    requires InRange(s)
    ensures Loss(s) <= SEQ_MOD - 1
    ensures Span(s) == 0 <==> s.last == s.lastReport || FullCycleDue(s)
    ensures Span(s) != 0 ==> Loss(s) < Span(s)
    ensures s.last == s.lastReport ==> Loss(s) == 0
  {
    var i := Low16(s.lastReport + 1);
    assert i == if s.lastReport == SEQ_MOD - 1 then 0 else s.lastReport + 1;
    var cycle := if FullCycleDue(s) then SEQ_MOD else if s.last < s.lastReport then -SEQ_MOD else 0;
    assert Span(s) == s.last - s.lastReport - cycle;
    MissingBelowDistance(s.slots, i, s.last);
    if Span(s) != 0 {
      Low16Of(s.last - i, Span(s) - 1, (s.last - i - Span(s) + 1) / SEQ_MOD);
    }
  }

  /** The per-report clamp never fires, and the fraction is the exact floor unless a full cycle is due. */
  lemma ReportIsExact(s: Stream, now: int)
    requires InRange(s)
    ensures Clamp(Loss(s), MAX_24) == Loss(s)
    ensures InRange(AfterReport(s))
    ensures var f := ReportOf(s, now).report.fractionLost;
            if Span(s) != 0 then
              f <= 255 && f * Span(s) <= Loss(s) * 256 < (f + 1) * Span(s)
            else f == if Loss(s) == 0 then 0 else 255
    ensures ReportOf(s, now).report.lastSequenceNumber == Extended(s)
  {
    LossBelowSpan(s);
    if Span(s) != 0 {
      FloorBelow256(Loss(s), Span(s));
    }
  }

  lemma FloorBelow256(lost: nat, total: nat)
    requires lost < total
    ensures lost * 256 / total <= 255
    ensures (lost * 256 / total) * total <= lost * 256 < (lost * 256 / total + 1) * total
  {
  }

  // ------------------------------------------------------------------ sender reports

  lemma {:induction false} PacketsKeepSenderReport(s: Stream, packets: seq<(int, RtpPacket)>)
    requires InRange(s)
    ensures InRange(AfterPackets(s, packets))
    ensures AfterPackets(s, packets).lastSenderReport == s.lastSenderReport
    ensures AfterPackets(s, packets).lastSenderReportTime == s.lastSenderReportTime
  {
    if packets != [] {
      PacketsKeepSenderReport(s, packets[..|packets| - 1]);
    }
  }

  /**
   Whatever packets come in between, a report echoes the middle 32 bits of the latest sender report's
   64-bit time (`seconds` and `fraction`) and how long ago that report came, in units of 1/65536 second
   rounded down, so that the sender can compute the round trip (section 6.4.1 of RFC 3550).
   */
  lemma ReportEchoesSenderReport(s: Stream, came: int, seconds: nat, fraction: nat, packets: seq<(int, RtpPacket)>,
                                 now: int)
    requires InRange(s) && fraction <= MAX_32 && came <= now
    ensures InRange(AfterPackets(AfterSenderReport(s, came, seconds * 0x1_0000_0000 + fraction), packets))
    ensures var s1 := AfterSenderReport(s, came, seconds * 0x1_0000_0000 + fraction);
      var r := ReportOf(AfterPackets(s1, packets), now).report;
      && r.lastSenderReport == seconds % 0x1_0000 * 0x1_0000 + fraction / 0x1_0000
      && (r.delay < MAX_32 ==> r.delay as real <= Elapsed(now, came) * 65536.0 < r.delay as real + 1.0)
  {
    var s1 := AfterSenderReport(s, came, seconds * 0x1_0000_0000 + fraction);
    MiddleBits(seconds, fraction);
    PacketsKeepSenderReport(s1, packets);
  }

  lemma MiddleBits(seconds: nat, fraction: nat)
    requires fraction <= MAX_32
    ensures (seconds * 0x1_0000_0000 + fraction) / 0x1_0000 % 0x1_0000_0000
         == seconds % 0x1_0000 * 0x1_0000 + fraction / 0x1_0000
  {
    var q, r, f := seconds / 0x1_0000, seconds % 0x1_0000, fraction / 0x1_0000;
    assert seconds == q * 0x1_0000 + r;
    var high := seconds * 0x1_0000 + f;
    assert (seconds * 0x1_0000_0000 + fraction) / 0x1_0000 == high;
    assert high == 0x1_0000_0000 * q + (r * 0x1_0000 + f);
  }

  // ------------------------------------------------------------------ whole runs of a stream

  datatype Event = Rtp(now: int, packet: RtpPacket) | SenderReport(now: int, ntpTime: nat) | Report(now: int)

  function After(s: Stream, e: Event): Stream
    requires InRange(s)
  {
    match e
    case Rtp(now, p) => AfterRtp(s, now, p)
    case SenderReport(now, ntp) => AfterSenderReport(s, now, ntp)
    case Report(now) => AfterReport(s)
  }

  lemma StaysInRange(s: Stream, e: Event)
    requires InRange(s)
    ensures InRange(After(s, e))
  {
  }

  ghost function AfterRun(s: Stream, events: seq<Event>): (r: Stream)
    requires InRange(s)
    ensures InRange(r)
    decreases |events|
  {
    if events == [] then s
    else
      StaysInRange(s, events[0]);
      AfterRun(After(s, events[0]), events[1..])
  }

  /** The losses that the reports of a run announce, summed without any bound. */
  ghost function ReportedLosses(s: Stream, events: seq<Event>): nat
    requires InRange(s)
    decreases |events|
  {
    if events == [] then 0
    else
      StaysInRange(s, events[0]);
      (if events[0].Report? then Loss(s) else 0) + ReportedLosses(After(s, events[0]), events[1..])
  }

  /** The cumulative count is the sum of the reported losses, held at 2^24 - 1 once it gets there. */
  lemma {:induction false} TotalLostSaturates(s: Stream, events: seq<Event>)
    requires InRange(s)
    ensures AfterRun(s, events).totalLost == Clamp(s.totalLost + ReportedLosses(s, events), MAX_24)
    decreases |events|
  {
    if events != [] {
      StaysInRange(s, events[0]);
      TotalLostSaturates(After(s, events[0]), events[1..]);
    }
  }

  // ------------------------------------------------------------------ jitter

  /** The arrival of a packet less its time stamp, in units of the time stamp (section 6.4.1 of RFC 3550). */
  function Transit(clockRate: real, now: int, timestamp: nat): real {
    now as real / 1000000000.0 * clockRate - timestamp as real
  }

  lemma TransitChanges(clockRate: real, now: int, since: int, timestamp: nat, previous: nat)
    requires since <= now
    ensures TransitChange(Elapsed(now, since), clockRate, timestamp, previous)
         == Transit(clockRate, now, timestamp) - Transit(clockRate, since, previous)
  {
    var n, s := now as real, since as real;
    assert (now - since) as real == n - s;
    assert (n - s) / 1000000000.0 == n / 1000000000.0 - s / 1000000000.0;
    Distributes(n / 1000000000.0, s / 1000000000.0, clockRate);
    if now == since {
      assert n == s;
    }
  }

  lemma Distributes(a: real, b: real, c: real)
    ensures (a - b) * c == a * c - b * c
  {
  }

  /**
   A packet that does not come before the one before it moves the jitter by a sixteenth of the way to the change of
   the transit time; the first one leaves it alone.
   */
  lemma JitterFollowsTransit(s: Stream, now: int, p: RtpPacket)
    requires s.lastRtpTime <= now
    ensures var s' := AfterRtp(s, now, p);
      var change := Transit(s.clockRate, now, p.timestamp) - Transit(s.clockRate, s.lastRtpTime, s.lastRtpTimestamp);
      && s'.lastRtpTime == now && s'.lastRtpTimestamp == p.timestamp
      && (!s.started ==> s'.jitter == s.jitter)
      && (s.started && change >= 0.0 ==> 16.0 * s'.jitter == 15.0 * s.jitter + change)
      && (s.started && change <= 0.0 ==> 16.0 * s'.jitter == 15.0 * s.jitter - change)
  {
    TransitChanges(s.clockRate, now, s.lastRtpTime, p.timestamp, s.lastRtpTimestamp);
  }

  /** The packet arrives, in order, with the transit time of the one before. */
  predicate OnTime(s: Stream, now: int, p: RtpPacket) {
    && s.lastRtpTime <= now
    && Transit(s.clockRate, now, p.timestamp) == Transit(s.clockRate, s.lastRtpTime, s.lastRtpTimestamp)
  }

  ghost predicate Steady(s: Stream, packets: seq<(int, RtpPacket)>) {
    packets != [] ==>
      var before, last := packets[..|packets| - 1], packets[|packets| - 1];
      Steady(s, before) && OnTime(AfterPackets(s, before), last.0, last.1)
  }

  function Power(base: real, n: nat): real { if n == 0 then 1.0 else base * Power(base, n - 1) }

  lemma OnTimeSettles(s: Stream, now: int, p: RtpPacket)
    requires s.started && OnTime(s, now, p)
    ensures AfterRtp(s, now, p).started && AfterRtp(s, now, p).jitter == 15.0 / 16.0 * s.jitter
  {
    JitterFollowsTransit(s, now, p);
  }

  lemma OnceMore(base: real, power: real, jitter: real)
    ensures base * (power * jitter) == base * power * jitter
  {
  }

  /** While packets come steadily the jitter dies down, by a sixteenth with each. */
  lemma {:induction false} SteadyPacketsSettle(s: Stream, packets: seq<(int, RtpPacket)>)
    requires s.started && Steady(s, packets)
    ensures AfterPackets(s, packets).started
    ensures AfterPackets(s, packets).jitter == Power(15.0 / 16.0, |packets|) * s.jitter
  {
    if packets != [] {
      var n := |packets| - 1;
      SteadyPacketsSettle(s, packets[..n]);
      OnTimeSettles(AfterPackets(s, packets[..n]), packets[n].0, packets[n].1);
      OnceMore(15.0 / 16.0, Power(15.0 / 16.0, n), s.jitter);
    }
  }

  lemma {:induction false} JitterStaysPositive(s: Stream, packets: seq<(int, RtpPacket)>)
    requires s.jitter >= 0.0
    ensures AfterPackets(s, packets).jitter >= 0.0
  {
    if packets != [] {
      JitterStaysPositive(s, packets[..|packets| - 1]);
    }
  }

  /** A report speaks of its source, in its receiver's name, with the jitter and the total at that moment. */
  lemma ReportSpeaksOf(s: Stream, now: int)
    requires InRange(s) && s.jitter >= 0.0
    ensures var r := ReportOf(s, now);
      && r.ssrc == s.receiverSsrc && r.report.ssrc == s.ssrc
      && r.report.totalLost == Clamp(s.totalLost + Loss(s), MAX_24)
      && (s.jitter < 0x1_0000_0000 as real ==>
            r.report.jitter as real <= s.jitter < r.report.jitter as real + 1.0)
  {
  }
}
