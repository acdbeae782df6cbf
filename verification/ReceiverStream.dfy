/**
 RTCP reception statistics of one RTP source (src/interceptors/report/receiver_stream.rs).

 `Stream` is the value a `ReceiverStream` object stands for: its bit-packed history becomes the set
 of occupied slots. The object's methods are proved against functions on `Stream`, and the
 properties RFC 3550 asks of the statistics are proved about those functions.
 */
module ReceiverStreams {
  import opened BitWords
  import opened SequenceNumbers

  const MAX_24 := 0xFF_FFFF
  const MAX_32 := 0xFFFF_FFFF

  /** The header fields of an RTP packet that the statistics look at. */
  datatype RtpPacket = RtpPacket(ssrc: nat, sequenceNumber: U16, timestamp: nat)

  datatype ReceptionReport = ReceptionReport(
    ssrc: nat, lastSequenceNumber: nat, lastSenderReport: nat,
    fractionLost: nat, totalLost: nat, delay: nat, jitter: nat)

  /** A report packet with its sender's own source identifier. */
  datatype ReceiverReport = ReceiverReport(ssrc: nat, report: ReceptionReport)

  datatype Stream = Stream(
    ssrc: nat, receiverSsrc: nat, clockRate: real,
    slots: set<int>, started: bool, cycles: nat, last: int, lastReport: int,
    lastRtpTimestamp: nat, lastRtpTime: int, jitter: real,
    lastSenderReport: nat, lastSenderReportTime: int, totalLost: nat)

  /** The ranges that the machine types and the first-packet rule give the fields. */
  ghost predicate InRange(s: Stream) {
    && 0 <= s.last < SEQ_MOD
    && -1 <= s.lastReport < SEQ_MOD
    && s.cycles < SEQ_MOD
    && s.totalLost <= MAX_24
    && forall p :: p in s.slots ==> 0 <= p < SLOTS
  }

  function Fresh(ssrc: nat, receiverSsrc: nat, clockRate: real, now: int): Stream {
    Stream(ssrc, receiverSsrc, clockRate, {}, false, 0, 0, 0, 0, now, 0.0, 0, now, 0)
  }

  // ------------------------------------------------------------------ packets

  function GapSlots(from: int, to: int): set<int> {
    set i | from <= i < to :: SlotOf(i)
  }

  /** Seconds between two instants counted in nanoseconds; an instant in the future counts as now. */
  function Elapsed(now: int, since: int): real {
    if now <= since then 0.0 else (now - since) as real / 1000000000.0
  }

  function Abs(x: real): real { if x < 0.0 then -x else x }

  /** The running estimate of section 6.4.1 of RFC 3550, for a transit time that changed by `d`. */
  function NextJitter(jitter: real, d: real): real {
    jitter + (Abs(d) - jitter) / 16.0
  }

  function TransitChange(elapsed: real, clockRate: real, timestamp: nat, previous: nat): real {
    elapsed * clockRate - (timestamp as real - previous as real)
  }

  /** True when the packet is taken as at most 4095 behind the highest one, hence not newer. */
  predicate Behind(last: int, sn: int) { -0x0FFF <= sn - last <= 0 }

  function AfterSequence(s: Stream, sn: U16): Stream {
    if !s.started then
      s.(started := true, slots := s.slots + {SlotOf(sn)}, last := sn, lastReport := sn - 1)
    else if Behind(s.last, sn) then
      s.(slots := s.slots + {SlotOf(sn)})
    else
      s.(slots := s.slots + {SlotOf(sn)} - GapSlots(s.last + 1, sn),
         cycles := if sn - s.last < -0x0FFF then Low16(s.cycles + 1) else s.cycles,
         last := sn)
  }

  function AfterRtp(s: Stream, now: int, packet: RtpPacket): Stream {
    var d := TransitChange(Elapsed(now, s.lastRtpTime), s.clockRate, packet.timestamp, s.lastRtpTimestamp);
    var jitter := if s.started then NextJitter(s.jitter, d) else s.jitter;
    AfterSequence(s, packet.sequenceNumber).(
      jitter := jitter, lastRtpTimestamp := packet.timestamp, lastRtpTime := now)
  }

  function AfterSenderReport(s: Stream, now: int, ntpTime: nat): Stream {
    s.(lastSenderReport := ntpTime / 0x1_0000 % 0x1_0000_0000, lastSenderReportTime := now)
  }

  // ------------------------------------------------------------------ reports

  /** How many of the sequence numbers from `i` up to but excluding `stop`, wrapping, have an empty slot. */
  function Missing(slots: set<int>, i: U16, stop: U16): nat
    decreases Low16(stop - i)
  {
    if i == stop then 0
    else
      WrappingStep(i, stop);
      Missing(slots, Low16(i + 1), stop) + if SlotOf(i) in slots then 0 else 1
  }

  /** The walk ends, and counts no more numbers than it passes. */
  lemma {:induction false} MissingBelowDistance(slots: set<int>, i: U16, stop: U16)
    ensures Missing(slots, i, stop) <= Low16(stop - i)
    decreases Low16(stop - i)
  {
    if i != stop {
      WrappingStep(i, stop);
      MissingBelowDistance(slots, Low16(i + 1), stop);
    }
  }

  lemma WrappingStep(i: U16, stop: U16)
    requires i != stop
    ensures Low16(stop - Low16(i + 1)) == Low16(stop - i) - 1
  {
  }

  function Span(s: Stream): nat { Low16(s.last - s.lastReport) }

  function Loss(s: Stream): nat
    requires 0 <= s.last < SEQ_MOD
  {
    if s.last == s.lastReport then 0 else Missing(s.slots, Low16(s.lastReport + 1), s.last)
  }

  function Clamp(n: nat, max: nat): nat { if n > max then max else n }

  /** The float division and saturating cast: 0/0 is not a number and becomes 0, x/0 saturates. */
  function FractionLost(lost: nat, total: nat): nat {
    if total == 0 then (if lost == 0 then 0 else 255) else Clamp(lost * 256 / total, 255)
  }

  function SaturatingU32(x: real): nat {
    if x <= 0.0 then 0 else Clamp(x.Floor, MAX_32)
  }

  function AfterReport(s: Stream): Stream
    requires 0 <= s.last < SEQ_MOD
  {
    s.(totalLost := Clamp(s.totalLost + Loss(s), MAX_24), lastReport := s.last)
  }

  function ReportOf(s: Stream, now: int): ReceiverReport
    requires 0 <= s.last < SEQ_MOD
  {
    ReceiverReport(
      s.receiverSsrc,
      ReceptionReport(
        s.ssrc, s.cycles * SEQ_MOD + s.last, s.lastSenderReport,
        FractionLost(Clamp(Loss(s), MAX_24), Span(s)), AfterReport(s).totalLost,
        SaturatingU32(Elapsed(now, s.lastSenderReportTime) * 65536.0),
        SaturatingU32(s.jitter)))
  }

  // ------------------------------------------------------------------ bit-packed history

  ghost function OccupiedSlots(words: seq<Word>): set<int>
    requires |words| == SLOTS
  {
    set p | 0 <= p < SLOTS && words[p / 64][p % 64]
  }

  // ------------------------------------------------------------------ the object

  class ReceiverStream {
    const ssrc: nat
    const receiverSsrc: nat
    const clockRate: real
    const packets: array<Word>
    var started: bool
    var cycles: nat
    var last: int
    var lastReport: int
    var lastRtpTimestamp: nat
    var lastRtpTime: int
    var jitter: real
    var lastSenderReport: nat
    var lastSenderReportTime: int
    var totalLost: nat

    ghost predicate Valid()
      reads this, packets
    {
      packets.Length == SLOTS && InRange(View())
    }

    ghost function View(): Stream
      reads this, packets
      requires packets.Length == SLOTS
    {
      Stream(ssrc, receiverSsrc, clockRate, OccupiedSlots(packets[..]), started, cycles, last, lastReport,
             lastRtpTimestamp, lastRtpTime, jitter, lastSenderReport, lastSenderReportTime, totalLost)
    }

    /** `receiverSsrc` is a random number. */
    constructor (ssrc: nat, receiverSsrc: nat, clockRate: nat, now: int)
      ensures Valid() && fresh(packets)
      ensures View() == Fresh(ssrc, receiverSsrc, clockRate as real, now)
    {
      this.ssrc, this.receiverSsrc := ssrc, receiverSsrc;
      this.clockRate := clockRate as real;
      packets := new Word[SLOTS](_ => seq(64, _ => false));
      started, cycles, last, lastReport := false, 0, 0, 0;
      lastRtpTimestamp, lastRtpTime, jitter := 0, now, 0.0;
      lastSenderReport, lastSenderReportTime, totalLost := 0, now, 0;
    }

    method SetReceived(sn: U16)
      requires Valid()
      modifies packets
      ensures packets.Length == SLOTS
      ensures View() == old(View()).(slots := old(View()).slots + {SlotOf(sn)})
    {
      var pos := sn % packets.Length;
      packets[pos / 64] := packets[pos / 64][pos % 64 := true];
    }

    method DelReceived(sn: U16)
      requires Valid()
      modifies packets
      ensures packets.Length == SLOTS
      ensures View() == old(View()).(slots := old(View()).slots - {SlotOf(sn)})
    {
      var pos := sn % packets.Length;
      packets[pos / 64] := packets[pos / 64][pos % 64 := false];
    }

    method GetReceived(sn: U16) returns (received: bool)
      requires Valid()
      ensures received <==> SlotOf(sn) in View().slots
    {
      var pos := sn % packets.Length;
      received := packets[pos / 64][pos % 64];
    }

    /** Marks the sequence numbers from `from` up to but excluding `to` as missing. */
    method ClearGap(from: int, to: int)
      requires Valid()
      requires 0 <= from && to < SEQ_MOD
      modifies packets
      ensures packets.Length == SLOTS
      ensures View() == old(View()).(slots := old(View()).slots - GapSlots(from, to))
    {
      var i := from;
      while i < to
        invariant i <= to || i == from
        invariant from <= i
        invariant packets.Length == SLOTS
        invariant View() == old(View()).(slots := old(View()).slots - GapSlots(from, i))
      {
        DelReceived(i);
        GapSlotsExtend(from, i);
        i := i + 1;
      }
      assert i == to || (GapSlots(from, i) == {} && GapSlots(from, to) == {});
    }

    method ProcessSequence(sn: U16)
      requires Valid()
      modifies this, packets
      ensures Valid()
      ensures View() == AfterSequence(old(View()), sn)
    {
      SetReceived(sn);
      if !started {
        started := true;
        last := sn;
        lastReport := sn - 1;
      } else if !Behind(last, sn) {
        if sn - last < -0x0FFF {
          cycles := Low16(cycles + 1);
        }
        ClearGap(last + 1, sn);
        last := sn;
      }
    }

    method ProcessRtp(now: int, packet: RtpPacket)
      requires Valid()
      modifies this, packets
      ensures Valid()
      ensures View() == AfterRtp(old(View()), now, packet)
    {
      var first := !started;
      ProcessSequence(packet.sequenceNumber);
      if !first {
        jitter := NextJitter(
          jitter, TransitChange(Elapsed(now, lastRtpTime), clockRate, packet.timestamp, lastRtpTimestamp));
      }
      lastRtpTimestamp := packet.timestamp;
      lastRtpTime := now;
    }

    method ProcessSenderReport(now: int, ntpTime: nat)
      requires Valid()
      modifies this
      ensures Valid()
      ensures View() == AfterSenderReport(old(View()), now, ntpTime)
    {
      lastSenderReport := ntpTime / 0x1_0000 % 0x1_0000_0000;
      lastSenderReportTime := now;
    }

    method CountLost() returns (lost: nat)
      requires Valid()
      ensures lost == Loss(View())
    {
      ghost var s := View();
      lost := 0;
      if last != lastReport {
        var i: int := Low16(lastReport + 1);
        while i != last
          invariant 0 <= i < SEQ_MOD
          invariant lost + Missing(s.slots, i, last) == Loss(s)
          decreases Low16(last - i)
        {
          WrappingStep(i, last);
          var received := GetReceived(i);
          if !received {
            lost := lost + 1;
          }
          i := Low16(i + 1);
        }
      }
    }

    method GenerateReport(now: int) returns (report: ReceiverReport)
      requires Valid()
      modifies this
      ensures Valid()
      ensures View() == AfterReport(old(View()))
      ensures report == ReportOf(old(View()), now)
    {
      var totalSinceReport := Low16(last - lastReport);
      var lost := CountLost();
      totalLost := totalLost + lost;
      if lost > MAX_24 {
        lost := MAX_24;
      }
      if totalLost > MAX_24 {
        totalLost := MAX_24;
      }
      report := ReceiverReport(
        receiverSsrc,
        ReceptionReport(
          ssrc, cycles * SEQ_MOD + last, lastSenderReport, FractionLost(lost, totalSinceReport), totalLost,
          SaturatingU32(Elapsed(now, lastSenderReportTime) * 65536.0),
          SaturatingU32(jitter)));
      lastReport := last;
    }
  }

  lemma GapSlotsExtend(from: int, to: int)
    requires from <= to
    ensures GapSlots(from, to + 1) == GapSlots(from, to) + {SlotOf(to)}
  {
  }
}
