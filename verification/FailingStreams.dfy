/**
 Streams, from their first packet on, on which the reception statistics go wrong: the inhabitants of
 the exceptions in ReceptionStatistics and LossHistory.
 */
module FailingStreams {
  import opened SequenceNumbers
  import opened ReceiverStreams
  import opened ReceptionStatistics
  import opened LossHistory

  function P(sn: U16): RtpPacket { RtpPacket(1, sn, 0) }

  /** A new stream has seen nothing. */
  ghost predicate New(s: Stream) { InRange(s) && !s.started && s.slots == {} && s.cycles == 0 }

  lemma FreshIsNew(ssrc: nat, receiverSsrc: nat, clockRate: real, now: int)
    ensures New(Fresh(ssrc, receiverSsrc, clockRate, now))
  {
  }

  // ------------------------------------------------------------------ a wrap over lost packets

  /** The numbers `x` and `x + 126` came, without a wrap in between, and have been reported. */
  lemma ReportedTracks(s: Stream, x: int)
    requires New(s) && Low16(x) <= 0xFFFF - 126
    ensures var s2 := AfterRtp(AfterRtp(s, 0, P(Low16(x))), 0, P(Low16(x + 126)));
      && InRange(s2) && Tracks(AfterReport(s2), History({x, x + 126}, x + 126, x + 126))
  {
    var s1, h := AfterRtp(s, 0, P(Low16(x))), History({x}, x, x - 1);
    FirstPacketTracks(s, 0, P(Low16(x)), x);
    NearPacketsAreOrderly(s1, h, x + 126);
    PacketTracksIffOrderly(s1, h, x + 126, 0, P(Low16(x + 126)));
    assert Received(h, x + 126) == History({x, x + 126}, x + 126, x - 1);
    ReportTracks(AfterRtp(s1, 0, P(Low16(x + 126))), Received(h, x + 126));
  }

  lemma HiddenByWrap(x: int)
    ensures var h := History({x, x + 126}, x + 126, x + 126);
      && Hidden(h, x + 129) == {x + 128}
      && Absent(Received(h, x + 129), x + 126) == {x + 127, x + 128}
  {
    assert Owner(x + 129, x) == x + 128 && Owner(x + 129, x + 126) == x + 126;
  }

  lemma WrapsAfter(x: int)
    requires Low16(x) == 0xFFFF - 126
    ensures Low16(x + 126) == 0xFFFF && Low16(x + 129) == 2
  {
    NearNumber(x, x + 126);
    Low16Of(x + 129, 2, x / 0x1_0000 + 1);
  }

  lemma HiddenLoss(s: Stream, h: History, x: int)
    requires h == History({x, x + 126}, x + 126, x + 126) && Tracks(s, h) && Low16(x) == 0xFFFF - 126
    ensures !Orderly(s, h, x + 129)
    ensures InRange(AfterSequence(s, Low16(x + 129))) && Loss(AfterSequence(s, Low16(x + 129))) == 1
  {
    WrapsAfter(x);
    HiddenByWrap(x);
    WrapHidesLosses(s, h, x + 129);
    assert |{x + 128}| == 1;
    assert |{x + 127, x + 128}| == 2;
  }

  /**
   In any cycle: of the numbers 65409 to 65538 the first, the one before the wrap and the last came, and
   a report was made before the wrap. Of the two numbers missing since, the next report announces one.
   */
  lemma WrapAnnouncesTooFew(s: Stream, x: int)
    requires New(s) && Low16(x) == 65409
    ensures var s2, h := AfterRtp(AfterRtp(s, 0, P(Low16(x))), 0, P(Low16(x + 126))),
            History({x, x + 126}, x + 126, x + 126);
      && InRange(s2) && Tracks(AfterReport(s2), h) && !Orderly(AfterReport(s2), h, x + 129)
      && Absent(Received(h, x + 129), x + 126) == {x + 127, x + 128}
      && InRange(AfterSequence(AfterReport(s2), Low16(x + 129)))
      && Loss(AfterSequence(AfterReport(s2), Low16(x + 129))) == 1
  {
    ReportedTracks(s, x);
    HiddenByWrap(x);
    HiddenLoss(AfterReport(AfterRtp(AfterRtp(s, 0, P(Low16(x))), 0, P(Low16(x + 126)))),
               History({x, x + 126}, x + 126, x + 126), x);
  }

  // ------------------------------------------------------------------ a long span

  /** The stream on which 0 came, then 2 and every number up to `n`. */
  function WithoutOne(s: Stream, n: U16): Stream
    decreases n
  {
    if n <= 2 then AfterRtp(AfterRtp(s, 0, P(0)), 0, P(2)) else AfterRtp(WithoutOne(s, n - 1), 0, P(n))
  }

  /** The number 0, and those from 2 to `n`. */
  ghost function Without1(n: nat): (r: set<int>)
    ensures forall x :: x in r <==> x == 0 || 2 <= x <= n
  {
    if n < 2 then {0} else Without1(n - 1) + {n}
  }

  ghost function AllButOne(n: nat): History { History(Without1(n), n, -1) }

  lemma {:induction false} WithoutOneTracks(s: Stream, n: U16)
    requires New(s) && 2 <= n
    ensures Tracks(WithoutOne(s, n), AllButOne(n))
    decreases n
  {
    if n == 2 {
      var s1, h := AfterRtp(s, 0, P(0)), History({0}, 0, -1);
      FirstPacketTracks(s, 0, P(0), 0);
      NearPacketsAreOrderly(s1, h, 2);
      PacketTracksIffOrderly(s1, h, 2, 0, P(2));
      assert Received(h, 2) == AllButOne(2);
    } else {
      WithoutOneTracks(s, n - 1);
      var s1, h := WithoutOne(s, n - 1), AllButOne(n - 1);
      Low16Of(n, n, 0);
      Low16Of(n - 1, n - 1, 0);
      NearPacketsAreOrderly(s1, h, n);
      PacketTracksIffOrderly(s1, h, n, 0, P(n));
      assert Received(h, n) == AllButOne(n);
    }
  }

  lemma OnlyOneIsAbsent(n: nat)
    requires n >= 2
    ensures Absent(AllButOne(n), -1) == {1}
  {
  }

  /** With the numbers up to `n` due, 129 at least, number 1 is covered by number 129 and is not announced. */
  lemma LongSpanForgets(s: Stream, n: U16)
    requires New(s) && 129 <= n < 256
    ensures Tracks(WithoutOne(s, n), AllButOne(n))
    ensures Absent(AllButOne(n), -1) == {1} && InRange(WithoutOne(s, n)) && Loss(WithoutOne(s, n)) == 0
  {
    var s1, h := WithoutOne(s, n), AllButOne(n);
    WithoutOneTracks(s, n);
    OnlyOneIsAbsent(n);
    FromIs(s1, h);
    ReportCountsSlots(s1, h);
    forall y | -1 < y <= n
      ensures Owner(n, y) in h.got
    {
      OwnerHasSlot(n, y);
    }
    assert Unseen(h, -1) == {};
  }

  // ------------------------------------------------------------------ a long jump

  lemma LongJumpSlots(s: Stream)
    requires New(s)
    ensures var s2 := AfterRtp(AfterRtp(s, 0, P(0)), 0, P(129));
      && s2.slots == {} && s2.last == 129 && s2.lastReport == -1 && s2.started && InRange(s2)
      && AfterRtp(s2, 0, P(130)).slots == {2} && AfterRtp(s2, 0, P(130)).last == 130
      && AfterRtp(s2, 0, P(130)).lastReport == -1 && InRange(AfterRtp(s2, 0, P(130)))
  {
    assert SlotOf(1) == SlotOf(129) && SlotOf(128) == SlotOf(0) && SlotOf(130) == 2;
    assert SlotOf(129) in GapSlots(1, 129) && SlotOf(0) in GapSlots(1, 129);
    assert GapSlots(130, 130) == {};
  }

  lemma MissingFirst(slots: set<int>, i: U16, stop: U16)
    requires i < stop
    ensures Missing(slots, i, stop) == Missing(slots, i + 1, stop) + if SlotOf(i) in slots then 0 else 1
  {
    Low16Of(i + 1, i + 1, 0);
  }

  ghost predicate OnlyHeard(slots: set<int>, i: U16, stop: U16, heard: int) {
    forall x: U16 :: i <= x < stop ==> (SlotOf(x) in slots <==> x == heard)
  }

  lemma {:induction false} MissingAllButOne(slots: set<int>, i: U16, stop: U16, heard: int)
    requires i <= stop && OnlyHeard(slots, i, stop, heard)
    ensures Missing(slots, i, stop) == stop - i - if i <= heard < stop then 1 else 0
    decreases stop - i
  {
    if i < stop {
      MissingFirst(slots, i, stop);
      MissingAllButOne(slots, i + 1, stop, heard);
    }
  }

  lemma LongJumpLoss(s: Stream, stop: U16)
    requires InRange(s) && s.slots == {2} && s.last == stop == 130 && s.lastReport == -1
    ensures Loss(s) == 129
  {
    var first: U16 := 0;
    Low16Of(s.lastReport + 1, first, 0);
    assert OnlyHeard(s.slots, first, stop, 2);
    MissingAllButOne(s.slots, first, stop, 2);
  }

  lemma LongJumpAbsent()
    ensures var h := Received(Received(History({0}, 0, -1), 129), 130);
      h == History({0, 129, 130}, 130, -1) && |Absent(h, -1)| == 128
  {
    var h := History({0, 129, 130}, 130, -1);
    AbsentComplementsReceived(h, -1);
    assert ReceivedSince(h, -1) == {0, 129, 130};
    assert |{0, 129, 130}| == 3;
  }

  lemma LongJumpIsDisorderly(s: Stream)
    requires New(s)
    ensures var s1, h := AfterRtp(s, 0, P(0)), History({0}, 0, -1);
            Tracks(s1, h) && !Orderly(s1, h, 129)
  {
    FirstPacketTracks(s, 0, P(0), 0);
    assert Low16(129) == 129;
  }

  /**
   After number 0, number 129 clears its own slot with those it skips. When 130 has come, the 128 numbers
   in between are missing, but 129 losses are announced: 0 and 129, which came, and not 2.
   */
  lemma LongJumpLosesItself(s: Stream, stop: U16)
    requires New(s) && stop == 130
    ensures var s1, h := AfterRtp(s, 0, P(0)), History({0}, 0, -1);
      && Tracks(s1, h) && !Orderly(s1, h, 129)
      && |Absent(Received(Received(h, 129), 130), -1)| == 128
      && var s3 := AfterRtp(AfterRtp(s1, 0, P(129)), 0, P(stop));
      InRange(s3) && Loss(s3) == 129
  {
    LongJumpIsDisorderly(s);
    LongJumpAbsent();
    LongJumpSlots(s);
    LongJumpLoss(AfterRtp(AfterRtp(AfterRtp(s, 0, P(0)), 0, P(129)), 0, P(stop)), stop);
  }

  // ------------------------------------------------------------------ a whole cycle

  lemma FirstIsMissing(slots: set<int>, i: U16, stop: U16)
    requires i != stop && SlotOf(i) !in slots
    ensures Missing(slots, i, stop) > 0
  {
  }

  /** When 0, the middle and the last number of a cycle came, the report's span reads zero and its fraction is 255. */
  lemma WholeCycleSaturates(s: Stream, first: U16, now: int)
    requires New(s) && first == 0
    ensures var s3 := AfterRtp(AfterRtp(AfterRtp(s, 0, P(first)), 0, P(0x8000)), 0, P(0xFFFF));
      InRange(s3) && FullCycleDue(s3) && ReportOf(s3, now).report.fractionLost == 255
  {
    var s1 := AfterRtp(s, 0, P(first));
    var s2 := AfterRtp(s1, 0, P(0x8000));
    var s3 := AfterRtp(s2, 0, P(0xFFFF));
    Counters(s1, 0x8000);
    Counters(s2, 0xFFFF);
    assert SlotOf(first) !in s3.slots by {
      assert SlotOf(0x8080) == SlotOf(first) && SlotOf(0x8080) in GapSlots(0x8001, 0xFFFF);
    }
    Low16Of(s3.lastReport + 1, first, 0);
    FirstIsMissing(s3.slots, first, s3.last);
    ReportIsExact(s3, now);
  }

  // ------------------------------------------------------------------ cycles run out

  /** A jump to the middle of a cycle and back to its start, `n` times. */
  function Rounds(n: nat): seq<(int, RtpPacket)> {
    if n == 0 then [] else Rounds(n - 1) + [(0, P(0x8000)), (0, P(0))]
  }

  lemma AfterTwo(s: Stream, packets: seq<(int, RtpPacket)>, p: (int, RtpPacket), q: (int, RtpPacket))
    ensures AfterPackets(s, packets + [p, q]) == AfterRtp(AfterRtp(AfterPackets(s, packets), p.0, p.1), q.0, q.1)
  {
    var all := packets + [p, q];
    assert all[..|all| - 1] == packets + [p];
    assert (packets + [p])[..|packets|] == packets;
  }

  /** Where one packet takes the counters. */
  lemma Counters(s: Stream, sn: U16)
    requires s.started && InRange(s) && !Behind(s.last, sn)
    ensures var s' := AfterRtp(s, 0, P(sn));
      && s'.started && InRange(s') && s'.last == sn
      && s'.cycles == if sn - s.last < -0x0FFF then Low16(s.cycles + 1) else s.cycles
  {
    ExtendedAdvances(s, 0, P(sn));
  }

  lemma OneRound(s: Stream)
    requires s.started && InRange(s) && s.cycles < SEQ_MOD - 1 && s.last == 0
    ensures var s' := AfterRtp(AfterRtp(s, 0, P(0x8000)), 0, P(0));
            s'.started && InRange(s') && s'.cycles == s.cycles + 1 && s'.last == 0
  {
    Counters(s, 0x8000);
    Counters(AfterRtp(s, 0, P(0x8000)), 0);
    Low16Of(s.cycles + 1, s.cycles + 1, 0);
  }

  lemma {:induction false} RoundsCount(s: Stream, n: nat)
    requires s.started && InRange(s) && s.cycles == 0 && s.last == 0 && n < SEQ_MOD
    ensures var s' := AfterPackets(s, Rounds(n));
            s'.started && InRange(s') && s'.cycles == n && s'.last == 0
  {
    if n > 0 {
      RoundsCount(s, n - 1);
      AfterTwo(s, Rounds(n - 1), (0, P(0x8000)), (0, P(0)));
      OneRound(AfterPackets(s, Rounds(n - 1)));
    }
  }

  /** From its first packet on, a stream gets to where the next cycle makes its extended number fall. */
  lemma CyclesRunOut(s: Stream, n: nat) returns (packets: seq<(int, RtpPacket)>)
    requires New(s) && n == SEQ_MOD - 1
    ensures var s' := AfterPackets(AfterRtp(s, 0, P(0)), packets);
      && s'.started && InRange(s') && CycleOverflow(s', 0)
      && Extended(AfterRtp(s', 0, P(0))) < Extended(s')
  {
    var s1 := AfterRtp(s, 0, P(0));
    RoundsCount(s1, n);
    packets := Rounds(n) + [(0, P(0x8000))];
    assert packets[..|packets| - 1] == Rounds(n);
    Counters(AfterPackets(s1, Rounds(n)), 0x8000);
    ExtendedAdvances(AfterPackets(s1, packets), 0, P(0));
  }
}
