/**
 The loss count of a receiver stream as a count of packets (src/interceptors/report/receiver_stream.rs):
 which packets the 128 slots keep right, and what a report announces.
 */
module LossHistory {
  import opened SequenceNumbers
  import opened ReceiverStreams
  import opened ReceptionStatistics

  /**
   The packets a stream is about, with unbounded numbers: those received, the highest of them, and
   the highest one at the previous report.
   */
  datatype History = History(got: set<int>, high: int, reported: int)

  /** The stream's counters are the 16-bit parts of the history's. */
  ghost predicate Aligned(s: Stream, h: History) {
    && InRange(s) && s.started
    && h.high in h.got
    && h.reported <= h.high
    && (s.lastReport == -1 ==> h.reported < h.high)
    && (forall x :: x in h.got ==> x <= h.high)
    && s.last == Low16(h.high)
    && Low16(s.lastReport) == Low16(h.reported)
  }

  /** The slots tell exactly which of the last 128 numbers were received. */
  ghost predicate Recorded(slots: set<int>, h: History) {
    forall x :: h.high - SLOTS < x <= h.high ==> (SlotOf(x) in slots <==> x in h.got)
  }

  /** The stream agrees with the history. */
  ghost predicate Tracks(s: Stream, h: History) {
    Aligned(s, h) && Recorded(s.slots, h)
  }

  function Received(h: History, x: int): History {
    History(h.got + {x}, if x > h.high then x else h.high, h.reported)
  }

  // ------------------------------------------------------------------ which packets are recorded rightly

  /** The packet is late but taken for a newer one, or newer but taken for a late one. */
  predicate Mistaken(s: Stream, h: History, x: int) {
    if x <= h.high then !Behind(s.last, Low16(x)) else Low16(x) != s.last && Behind(s.last, Low16(x))
  }

  /** None of the last 128 numbers was received that gives a skipped number's slot away. */
  ghost predicate NothingStale(h: History, x: int) {
    forall z :: z in h.got && h.high - SLOTS < z <= x - SLOTS ==> SlotOf(z) == SlotOf(x)
  }

  /**
   The packets on which the code keeps the history right. A late one must be seen as late and must not
   fill the slot of a missing number. A newer one whose 16-bit number is higher must be at most 128
   ahead, or exactly 128 ahead but for whole cycles: beyond that its own slot is cleared with the gap.
   A newer one whose 16-bit number is not higher clears nothing, so nothing stale may be left.
   */
  ghost predicate Orderly(s: Stream, h: History, x: int) {
    && !Mistaken(s, h, x)
    && if x <= h.high then Owner(h.high, x) == x || Owner(h.high, x) in h.got
       else if Low16(x) > s.last then x <= h.high + SLOTS || Low16(x) == s.last + SLOTS
       else NothingStale(h, x)
  }

  lemma AlignedIff(s: Stream, h: History, x: int)
    requires Aligned(s, h)
    ensures Aligned(AfterSequence(s, Low16(x)), Received(h, x)) <==> !Mistaken(s, h, x)
  {
  }

  /** A slot tells of its owner. */
  lemma SlotTellsOwner(s: Stream, h: History, y: int)
    requires Tracks(s, h)
    ensures SlotOf(y) in s.slots <==> Owner(h.high, y) in h.got
  {
    OwnerHasSlot(h.high, y);
  }

  lemma LateIff(s: Stream, h: History, x: int)
    requires Tracks(s, h) && x <= h.high && Behind(s.last, Low16(x))
    ensures Recorded(AfterSequence(s, Low16(x)).slots, Received(h, x))
       <==> Owner(h.high, x) == x || Owner(h.high, x) in h.got
  {
    var slots, h' := AfterSequence(s, Low16(x)).slots, Received(h, x);
    Low16KeepsSlot(x);
    OwnerHasSlot(h.high, x);
    if Owner(h.high, x) == x || Owner(h.high, x) in h.got {
      forall y | h'.high - SLOTS < y <= h'.high
        ensures SlotOf(y) in slots <==> y in h'.got
      {
        if SlotOf(y) == SlotOf(x) {
          OwnerIsUnique(h.high, x, y);
        }
      }
    } else {
      assert SlotOf(Owner(h.high, x)) in slots && Owner(h.high, x) !in h'.got;
    }
  }

  /** The slots cleared on a jump from `last` to `sn`, seen from the unbounded number `x` of `sn`. */
  lemma GapWithin(last: int, sn: int, x: int, y: int)
    requires last < sn <= last + SLOTS && SlotOf(sn) == SlotOf(x) && x - SLOTS < y <= x
    ensures SlotOf(y) in GapSlots(last + 1, sn) <==> x - (sn - last) < y < x
  {
    var j := sn - (x - y);
    SlotShift(sn, x, y - x);
    if x - (sn - last) < y < x {
      assert last + 1 <= j < sn && SlotOf(j) == SlotOf(y);
    }
    if SlotOf(y) in GapSlots(last + 1, sn) {
      var i :| last + 1 <= i < sn && SlotOf(i) == SlotOf(y);
      SameSlot(i, j);
    }
  }

  /** A jump forwards by no more than 128, without a wrap, records the gap as missing. */
  lemma JumpRecorded(s: Stream, h: History, x: int)
    requires Tracks(s, h) && h.high < x <= h.high + SLOTS && s.last < Low16(x)
    ensures Recorded(AfterSequence(s, Low16(x)).slots, Received(h, x))
  {
    var slots, sn := AfterSequence(s, Low16(x)).slots, Low16(x);
    Low16KeepsSlot(x);
    NearNumber(h.high, x);
    forall y | x - SLOTS < y <= x
      ensures SlotOf(y) in slots <==> y in h.got + {x}
    {
      GapWithin(s.last, sn, x, y);
      if y != x && SlotOf(y) == SlotOf(x) {
        SameSlot(y, x);
      }
    }
  }

  /** A jump of 128 on top of whole cycles clears every other slot, rightly. */
  lemma CycleJumpRecorded(s: Stream, h: History, x: int)
    requires Tracks(s, h) && h.high + SLOTS < x && Low16(x) == s.last + SLOTS
    ensures Recorded(AfterSequence(s, Low16(x)).slots, Received(h, x))
  {
    var slots, sn := AfterSequence(s, Low16(x)).slots, Low16(x);
    Low16KeepsSlot(x);
    forall y | x - SLOTS < y <= x
      ensures SlotOf(y) in slots <==> y in h.got + {x}
    {
      GapWithin(s.last, sn, x, y);
    }
  }

  /** A shorter jump on top of whole cycles leaves the slot of the highest number occupied. */
  lemma ShortCycleJumpFails(s: Stream, h: History, x: int)
    requires Tracks(s, h) && h.high + SLOTS < x && s.last < Low16(x) < s.last + SLOTS
    ensures !Recorded(AfterSequence(s, Low16(x)).slots, Received(h, x))
  {
    var slots, sn := AfterSequence(s, Low16(x)).slots, Low16(x);
    var y := x - (sn - s.last);
    Low16KeepsSlot(x);
    Low16KeepsSlot(h.high);
    SlotShift(sn, x, s.last - sn);
    assert SlotOf(y) == SlotOf(h.high) && SlotOf(y) in s.slots;
    GapWithin(s.last, sn, x, y);
    assert SlotOf(y) in slots && y !in h.got + {x};
  }

  /** A longer jump clears the packet's own slot. */
  lemma LongJumpFails(s: Stream, h: History, x: int)
    requires Tracks(s, h) && h.high < x && s.last + SLOTS < Low16(x)
    ensures !Recorded(AfterSequence(s, Low16(x)).slots, Received(h, x))
  {
    var slots, sn := AfterSequence(s, Low16(x)).slots, Low16(x);
    Low16KeepsSlot(x);
    SlotPeriod(sn, -1);
    assert s.last + 1 <= sn - SLOTS < sn && SlotOf(sn - SLOTS) == SlotOf(sn);
    assert SlotOf(sn) in GapSlots(s.last + 1, sn);
    assert SlotOf(x) !in slots;
  }

  lemma JumpIff(s: Stream, h: History, x: int)
    requires Tracks(s, h) && h.high < x && s.last < Low16(x)
    ensures Recorded(AfterSequence(s, Low16(x)).slots, Received(h, x))
       <==> x <= h.high + SLOTS || Low16(x) == s.last + SLOTS
  {
    if x <= h.high + SLOTS {
      JumpRecorded(s, h, x);
    } else if Low16(x) < s.last + SLOTS {
      ShortCycleJumpFails(s, h, x);
    } else if Low16(x) == s.last + SLOTS {
      CycleJumpRecorded(s, h, x);
    } else {
      LongJumpFails(s, h, x);
    }
  }

  /** A packet whose 16-bit number is not higher only fills its own slot. */
  lemma WrapClearsNothing(s: Stream, h: History, x: int)
    requires Tracks(s, h) && h.high < x && Low16(x) <= s.last
    ensures AfterSequence(s, Low16(x)).slots == s.slots + {SlotOf(x)}
  {
    Low16KeepsSlot(x);
    assert GapSlots(s.last + 1, Low16(x)) == {};
  }

  lemma StaleIsShown(s: Stream, h: History, x: int, z: int)
    requires Tracks(s, h) && h.high < x && Low16(x) <= s.last
    requires Recorded(AfterSequence(s, Low16(x)).slots, Received(h, x))
    requires z in h.got && h.high - SLOTS < z <= x - SLOTS
    ensures SlotOf(z) == SlotOf(x)
  {
    WrapClearsNothing(s, h, x);
    var y := Owner(x, z);
    OwnerHasSlot(x, z);
    assert SlotOf(y) in s.slots && y in h.got + {x};
    if y != x {
      SameSlot(y, z);
    }
  }

  lemma NothingStaleRecorded(s: Stream, h: History, x: int)
    requires Tracks(s, h) && h.high < x && Low16(x) <= s.last && NothingStale(h, x)
    ensures Recorded(AfterSequence(s, Low16(x)).slots, Received(h, x))
  {
    WrapClearsNothing(s, h, x);
    forall y | x - SLOTS < y <= x
      ensures SlotOf(y) in AfterSequence(s, Low16(x)).slots <==> y in h.got + {x}
    {
      SlotTellsOwner(s, h, y);
      OwnerHasSlot(h.high, y);
      if y != x && SlotOf(y) == SlotOf(x) {
        SameSlot(y, x);
      }
      if h.high < y && Owner(h.high, y) > y - SLOTS {
        SameSlot(Owner(h.high, y), y);
      }
    }
  }

  lemma WrapIff(s: Stream, h: History, x: int)
    requires Tracks(s, h) && h.high < x && Low16(x) <= s.last
    ensures Recorded(AfterSequence(s, Low16(x)).slots, Received(h, x)) <==> NothingStale(h, x)
  {
    if Recorded(AfterSequence(s, Low16(x)).slots, Received(h, x)) {
      forall z | z in h.got && h.high - SLOTS < z <= x - SLOTS
        ensures SlotOf(z) == SlotOf(x)
      {
        StaleIsShown(s, h, x, z);
      }
    } else if NothingStale(h, x) {
      NothingStaleRecorded(s, h, x);
    }
  }

  /** For every packet, however late or early, the code keeps the history right if and only if it is orderly. */
  lemma PacketTracksIffOrderly(s: Stream, h: History, x: int, now: int, p: RtpPacket)
    requires Tracks(s, h) && p.sequenceNumber == Low16(x)
    ensures Tracks(AfterRtp(s, now, p), Received(h, x)) <==> Orderly(s, h, x)
  {
    var next := AfterSequence(s, Low16(x));
    assert Tracks(AfterRtp(s, now, p), Received(h, x)) <==> Tracks(next, Received(h, x));
    AlignedIff(s, h, x);
    if !Mistaken(s, h, x) {
      if x <= h.high {
        LateIff(s, h, x);
      } else if Low16(x) > s.last {
        JumpIff(s, h, x);
      } else {
        WrapIff(s, h, x);
      }
    }
  }

  /** Late by less than 128 or ahead by at most 128, packets are orderly as long as there is no wrap in between. */
  lemma NearPacketsAreOrderly(s: Stream, h: History, x: int)
    requires Tracks(s, h)
    requires h.high - SLOTS < x <= h.high + SLOTS && 0 <= s.last + (x - h.high) < SEQ_MOD
    ensures Orderly(s, h, x)
  {
    NearNumber(h.high, x);
    OwnerHasSlot(h.high, x);
  }

  /** The next number is always orderly, even over the wrap. */
  lemma NextPacketIsOrderly(s: Stream, h: History)
    requires Tracks(s, h)
    ensures Orderly(s, h, h.high + 1)
  {
    NextNumber(h.high);
    SlotPeriod(h.high + 1, -1);
  }

  lemma FirstPacketTracks(s: Stream, now: int, p: RtpPacket, x: int)
    requires InRange(s) && !s.started && s.slots == {}
    requires p.sequenceNumber == Low16(x)
    ensures Tracks(AfterRtp(s, now, p), History({x}, x, x - 1))
  {
    Low16KeepsSlot(x);
    var k := Low16Distance(x - 1, x);
    Low16Of(Low16(x) - 1, Low16(x - 1), -k);
    assert AfterRtp(s, now, p).slots == {SlotOf(x)};
    forall y | x - SLOTS < y <= x
      ensures SlotOf(y) in AfterRtp(s, now, p).slots <==> y in {x}
    {
      if SlotOf(y) == SlotOf(x) {
        SameSlot(y, x);
      }
    }
  }

  // ------------------------------------------------------------------ what a report announces

  /** The numbers due since `from` of which no packet came. */
  ghost function Absent(h: History, from: int): set<int> {
    set x | from < x <= h.high && x !in h.got
  }

  ghost function ReceivedSince(h: History, from: int): set<int> {
    set x | x in h.got && from < x <= h.high
  }

  /** The numbers due since `from` in whose slot no packet of the last 128 numbers came. */
  ghost function Unseen(h: History, from: int): set<int> {
    set x | from < x <= h.high && Owner(h.high, x) !in h.got
  }

  lemma UnseenStep(h: History, from: int)
    requires from < h.high
    ensures |Unseen(h, from)| == |Unseen(h, from + 1)| + if Owner(h.high, from + 1) in h.got then 0 else 1
  {
    if Owner(h.high, from + 1) in h.got {
      assert Unseen(h, from) == Unseen(h, from + 1);
    } else {
      assert Unseen(h, from) == Unseen(h, from + 1) + {from + 1};
    }
  }

  lemma MissingStep(slots: set<int>, x: int, high: int)
    requires x < high < x + SEQ_MOD
    ensures Missing(slots, Low16(x), Low16(high))
         == Missing(slots, Low16(x + 1), Low16(high)) + if SlotOf(x) in slots then 0 else 1
  {
    Low16Distinct(x, high);
    Low16Successor(x);
    Low16KeepsSlot(x);
  }

  /** One number more makes the same difference to the walk and to the set. */
  lemma CountStep(s: Stream, h: History, from: int)
    requires Tracks(s, h) && h.high - SEQ_MOD <= from < h.high - 1
    ensures Missing(s.slots, Low16(from + 1), Low16(h.high)) - |Unseen(h, from)|
         == Missing(s.slots, Low16(from + 2), Low16(h.high)) - |Unseen(h, from + 1)|
  {
    MissingStep(s.slots, from + 1, h.high);
    SlotTellsOwner(s, h, from + 1);
    UnseenStep(h, from);
  }

  lemma NothingLeft(h: History)
    requires h.high in h.got
    ensures Unseen(h, h.high - 1) == {}
  {
    OwnerHasSlot(h.high, h.high);
  }

  lemma {:induction false} MissingCountsUnseen(s: Stream, h: History, from: int)
    requires Tracks(s, h)
    requires h.high - SEQ_MOD <= from < h.high
    ensures Missing(s.slots, Low16(from + 1), Low16(h.high)) == |Unseen(h, from)|
    decreases h.high - from
  {
    if from == h.high - 1 {
      NothingLeft(h);
    } else {
      CountStep(s, h, from);
      MissingCountsUnseen(s, h, from + 1);
    }
  }

  lemma SameSuccessor(x: int, y: int)
    requires Low16(x) == Low16(y)
    ensures Low16(x + 1) == Low16(y + 1)
  {
    Low16Successor(x);
    Low16Successor(y);
  }

  /** The number after which the report counts: it cannot reach back further than a cycle. */
  function From(s: Stream, h: History): int {
    h.high - if s.last == s.lastReport then 0 else if Span(s) == 0 then SEQ_MOD else Span(s)
  }

  lemma SpanOfHistory(s: Stream, h: History)
    requires Aligned(s, h)
    ensures Span(s) == Low16(h.high - h.reported)
    ensures s.last == s.lastReport ==> Span(s) == 0
    ensures Span(s) == 0 && s.last != s.lastReport ==> h.high - h.reported >= SEQ_MOD
  {
    Low16Of(s.last, s.last, 0);
    Low16Difference(h.reported, h.high, s.lastReport, s.last);
    if Span(s) == 0 && s.last != s.lastReport {
      LossBelowSpan(s);
      assert s.lastReport == -1;
    }
  }

  lemma FromIs(s: Stream, h: History)
    requires Aligned(s, h)
    ensures h.reported <= From(s, h) <= h.high && h.high - SEQ_MOD <= From(s, h)
    ensures Low16(From(s, h)) == Low16(s.lastReport)
    ensures From(s, h) == h.high <==> s.last == s.lastReport
    ensures h.high - h.reported < SEQ_MOD ==> From(s, h) == h.reported
  {
    SpanOfHistory(s, h);
    var due, k := h.high - h.reported, (h.high - h.reported) / SEQ_MOD;
    assert due == Low16(due) + 0x1_0000 * k;
    FromIsCycles(s, h, k);
  }

  lemma FromIsCycles(s: Stream, h: History, k: int)
    requires Aligned(s, h) && h.high - h.reported == Span(s) + 0x1_0000 * k && k >= 0
    requires s.last == s.lastReport ==> Span(s) == 0
    requires Span(s) == 0 && s.last != s.lastReport ==> k >= 1
    ensures From(s, h) - h.reported == 0x1_0000 * if Span(s) == 0 && s.last != s.lastReport then k - 1 else k
    ensures Low16(From(s, h)) == Low16(h.reported)
  {
    var n := if Span(s) == 0 && s.last != s.lastReport then k - 1 else k;
    Low16Of(From(s, h), Low16(h.reported), h.reported / 0x1_0000 + n);
  }

  /** A report counts each number after `From` by what its slot says now. */
  lemma ReportCountsSlots(s: Stream, h: History)
    requires Tracks(s, h)
    ensures Loss(s) == |Unseen(h, From(s, h))|
  {
    FromIs(s, h);
    if s.last == s.lastReport {
      assert Unseen(h, From(s, h)) == {};
    } else {
      SameSuccessor(s.lastReport, From(s, h));
      MissingCountsUnseen(s, h, From(s, h));
    }
  }

  lemma AbsentComplementsReceived(h: History, from: int)
    requires from <= h.high
    ensures |Absent(h, from)| + |ReceivedSince(h, from)| == h.high - from
    decreases h.high - from
  {
    if from < h.high {
      AbsentComplementsReceived(h, from + 1);
      if from + 1 in h.got {
        assert Absent(h, from) == Absent(h, from + 1);
        assert ReceivedSince(h, from) == ReceivedSince(h, from + 1) + {from + 1};
      } else {
        assert Absent(h, from) == Absent(h, from + 1) + {from + 1};
        assert ReceivedSince(h, from) == ReceivedSince(h, from + 1);
      }
    } else {
      assert Absent(h, from) == {} && ReceivedSince(h, from) == {};
    }
  }

  /** Missing numbers in whose slot a later packet came. */
  ghost function Filled(h: History, from: int): set<int> {
    set x | from < x <= h.high && x !in h.got && Owner(h.high, x) in h.got
  }

  /** Received numbers whose slot was cleared for a later one that is missing. */
  ghost function Emptied(h: History, from: int): set<int> {
    set x | from < x <= h.high && x in h.got && Owner(h.high, x) !in h.got
  }

  /** Missing numbers that are too far back to be counted. */
  ghost function Skipped(h: History, from: int): set<int> {
    set x | h.reported < x <= from && x !in h.got
  }

  /** By how much a report announces too many, if positive, or too few. */
  ghost function Error(s: Stream, h: History): int {
    |Emptied(h, From(s, h))| - |Filled(h, From(s, h))| - |Skipped(h, From(s, h))|
  }

  lemma UnseenSplit(h: History, from: int)
    ensures |Unseen(h, from)| == |Absent(h, from)| - |Filled(h, from)| + |Emptied(h, from)|
  {
    assert Filled(h, from) <= Absent(h, from);
    assert Unseen(h, from) == (Absent(h, from) - Filled(h, from)) + Emptied(h, from);
    assert (Absent(h, from) - Filled(h, from)) !! Emptied(h, from);
  }

  lemma AbsentSplit(h: History, from: int)
    requires h.reported <= from <= h.high
    ensures |Absent(h, h.reported)| == |Skipped(h, from)| + |Absent(h, from)|
  {
    assert Absent(h, h.reported) == Skipped(h, from) + Absent(h, from);
    assert Skipped(h, from) !! Absent(h, from);
  }

  lemma NoErrorWithinWindow(s: Stream, h: History)
    requires Aligned(s, h) && h.high - h.reported <= SLOTS
    ensures Error(s, h) == 0
  {
    FromIs(s, h);
    forall x | h.reported < x <= h.high
      ensures Owner(h.high, x) == x
    {
      OwnerHasSlot(h.high, x);
    }
    assert Filled(h, h.reported) == {} && Emptied(h, h.reported) == {} && Skipped(h, h.reported) == {};
  }

  /**
   Whatever is due, a report announces the missing numbers and the error. So it is right if and only if
   as many received numbers have lost their slots as missing ones are covered by later packets or out of
   reach, and always with at most 128 numbers due.
   */
  lemma ReportCountsLosses(s: Stream, h: History)
    requires Tracks(s, h)
    ensures Loss(s) == |Absent(h, h.reported)| + Error(s, h)
    ensures Loss(s) == (h.high - h.reported) - |ReceivedSince(h, h.reported)| + Error(s, h)
    ensures h.high - h.reported <= SLOTS ==> Error(s, h) == 0 && Span(s) == h.high - h.reported
  {
    FromIs(s, h);
    ReportCountsSlots(s, h);
    UnseenSplit(h, From(s, h));
    AbsentSplit(h, From(s, h));
    AbsentComplementsReceived(h, h.reported);
    if h.high - h.reported <= SLOTS {
      NoErrorWithinWindow(s, h);
    }
  }

  /** A report only moves the mark from which the next one counts. */
  lemma ReportTracks(s: Stream, h: History)
    requires Tracks(s, h)
    ensures Tracks(AfterReport(s), h.(reported := h.high))
  {
    Low16Of(s.last, s.last, 0);
  }

  // ------------------------------------------------------------------ what a wrap hides

  /** The numbers skipped by a wrap forwards whose slots still hold packets from before. */
  ghost function Hidden(h: History, x: int): set<int> {
    set z | z in h.got && h.high - SLOTS < z && h.high < Owner(x, z) < x :: Owner(x, z)
  }

  lemma HiddenIff(h: History, x: int, y: int)
    requires (forall z :: z in h.got ==> z <= h.high) && h.high < x
    ensures y in Hidden(h, x) <==> x - SLOTS < y < x && h.high < y && Owner(h.high, y) in h.got
  {
    OwnerHasSlot(h.high, y);
    if x - SLOTS < y < x && h.high < y && Owner(h.high, y) in h.got {
      OwnerIsUnique(x, Owner(h.high, y), y);
    }
    if y in Hidden(h, x) {
      var z :| z in h.got && h.high - SLOTS < z && h.high < Owner(x, z) < x && y == Owner(x, z);
      OwnerHasSlot(x, z);
      OwnerIsUnique(h.high, y, z);
    }
  }

  /**
   A stream that has wrapped forwards, by however much, is right about a history in which the hidden numbers had
   come.
   */
  lemma WrapTracksHidden(s: Stream, h: History, x: int)
    requires Tracks(s, h) && h.high < x && Low16(x) <= s.last && !Mistaken(s, h, x)
    ensures Tracks(AfterSequence(s, Low16(x)), History(h.got + {x} + Hidden(h, x), x, h.reported))
  {
    var s', h' := AfterSequence(s, Low16(x)), History(h.got + {x} + Hidden(h, x), x, h.reported);
    AlignedIff(s, h, x);
    WrapClearsNothing(s, h, x);
    forall y | y in h'.got
      ensures y <= x
    {
      HiddenIff(h, x, y);
    }
    forall y | x - SLOTS < y <= x
      ensures SlotOf(y) in s'.slots <==> y in h'.got
    {
      HiddenIff(h, x, y);
      SlotTellsOwner(s, h, y);
      OwnerHasSlot(h.high, y);
      if y != x && SlotOf(y) == SlotOf(x) {
        SameSlot(y, x);
      }
    }
  }

  lemma HiddenIsAbsent(h: History, x: int)
    requires h.high < x && h.reported <= h.high && forall y :: y in h.got ==> y <= h.high
    ensures Hidden(h, x) <= Absent(Received(h, x), h.reported)
    ensures Absent(History(h.got + {x} + Hidden(h, x), x, h.reported), h.reported)
         == Absent(Received(h, x), h.reported) - Hidden(h, x)
  {
    forall y | y in Hidden(h, x)
      ensures h.high < y < x
    {
      HiddenIff(h, x, y);
    }
  }

  lemma NothingHiddenIff(h: History, x: int)
    requires (forall z :: z in h.got ==> z <= h.high) && h.high < x
    ensures Hidden(h, x) == {} <==> NothingStale(h, x)
  {
    if NothingStale(h, x) {
      forall y | y in Hidden(h, x)
        ensures false
      {
        HiddenIff(h, x, y);
        OwnerHasSlot(h.high, y);
        if Owner(h.high, y) > x - SLOTS {
          SameSlot(y, Owner(h.high, y));
        }
        SameSlot(y, x);
      }
    } else {
      var z :| z in h.got && h.high - SLOTS < z <= x - SLOTS && SlotOf(z) != SlotOf(x);
      OwnerHasSlot(x, z);
      if Owner(x, z) <= h.high {
        SameSlot(Owner(x, z), z);
      }
      assert Owner(x, z) in Hidden(h, x);
    }
  }

  /** A report right after a wrap forwards announces too few by the hidden numbers, apart from the usual error. */
  lemma WrapHidesLosses(s: Stream, h: History, x: int)
    requires Tracks(s, h) && h.high < x && Low16(x) <= s.last && !Mistaken(s, h, x)
    ensures var s', h' := AfterSequence(s, Low16(x)), History(h.got + {x} + Hidden(h, x), x, h.reported);
      && InRange(s')
      && Loss(s') == |Absent(Received(h, x), h.reported)| - |Hidden(h, x)| + Error(s', h')
      && (x - h.reported <= SLOTS ==> Error(s', h') == 0)
    ensures Hidden(h, x) == {} <==> Orderly(s, h, x)
  {
    WrapTracksHidden(s, h, x);
    ReportCountsLosses(AfterSequence(s, Low16(x)), History(h.got + {x} + Hidden(h, x), x, h.reported));
    HiddenIsAbsent(h, x);
    NothingHiddenIff(h, x);
  }

  // ------------------------------------------------------------------ every run

  /** A packet with its unbounded number, or the moment of a report. */
  datatype Arrival = Packet(x: int, now: int, ssrc: nat, timestamp: nat) | Tick(now: int)

  function Wire(a: Arrival): RtpPacket
    requires a.Packet?
  {
    RtpPacket(a.ssrc, Low16(a.x), a.timestamp)
  }

  /** Every packet is orderly. */
  ghost predicate OrderlyRun(s: Stream, h: History, arrivals: seq<Arrival>)
    requires InRange(s)
    decreases |arrivals|
  {
    if arrivals == [] then true
    else
      match arrivals[0]
      case Packet(x, now, _, _) =>
        && Orderly(s, h, x)
        && (StaysInRange(s, Rtp(now, Wire(arrivals[0])));
            OrderlyRun(AfterRtp(s, now, Wire(arrivals[0])), Received(h, x), arrivals[1..]))
      case Tick(now) =>
        StaysInRange(s, Report(now));
        OrderlyRun(AfterReport(s), h.(reported := h.high), arrivals[1..])
  }

  /** What a report announces, what was due and really missing, and the error that the slots make. */
  datatype Figures = Figures(announced: nat, due: int, missing: nat, error: int)

  ghost function FiguresOf(s: Stream, h: History): Figures
    requires InRange(s)
  {
    Figures(Loss(s), h.high - h.reported, |Absent(h, h.reported)|, Error(s, h))
  }

  /** The figures of a run, report by report. */
  ghost function Reports(s: Stream, h: History, arrivals: seq<Arrival>): seq<Figures>
    requires InRange(s)
    decreases |arrivals|
  {
    if arrivals == [] then []
    else
      match arrivals[0]
      case Packet(x, now, _, _) =>
        StaysInRange(s, Rtp(now, Wire(arrivals[0])));
        Reports(AfterRtp(s, now, Wire(arrivals[0])), Received(h, x), arrivals[1..])
      case Tick(now) =>
        StaysInRange(s, Report(now));
        [FiguresOf(s, h)] + Reports(AfterReport(s), h.(reported := h.high), arrivals[1..])
  }

  ghost predicate Accounted(f: Figures) {
    && f.announced == f.missing + f.error
    && (f.due <= SLOTS ==> f.announced == f.missing)
  }

  /**
   On every orderly run, each report announces the packets missing since the one before, but for the
   error; with at most 128 numbers due there is none.
   */
  lemma {:induction false} AnnouncedLossesAreTrue(s: Stream, h: History, arrivals: seq<Arrival>)
    requires Tracks(s, h)
    requires OrderlyRun(s, h, arrivals)
    ensures forall k :: 0 <= k < |Reports(s, h, arrivals)| ==> Accounted(Reports(s, h, arrivals)[k])
    decreases |arrivals|
  {
    if arrivals != [] {
      match arrivals[0]
      case Packet(x, now, _, _) =>
        var p := Wire(arrivals[0]);
        PacketTracksIffOrderly(s, h, x, now, p);
        AnnouncedLossesAreTrue(AfterRtp(s, now, p), Received(h, x), arrivals[1..]);
      case Tick(now) =>
        ReportCountsLosses(s, h);
        ReportTracks(s, h);
        AnnouncedLossesAreTrue(AfterReport(s), h.(reported := h.high), arrivals[1..]);
    }
  }

  /** So it is for every stream from its first packet on. */
  lemma FreshStreamIsTrue(s: Stream, first: Arrival, arrivals: seq<Arrival>)
    requires InRange(s) && !s.started && s.slots == {} && first.Packet?
    ensures InRange(AfterRtp(s, first.now, Wire(first)))
    ensures var s1, h := AfterRtp(s, first.now, Wire(first)), History({first.x}, first.x, first.x - 1);
      OrderlyRun(s1, h, arrivals) ==>
        forall k :: 0 <= k < |Reports(s1, h, arrivals)| ==> Accounted(Reports(s1, h, arrivals)[k])
  {
    FirstPacketTracks(s, first.now, Wire(first), first.x);
    var s1, h := AfterRtp(s, first.now, Wire(first)), History({first.x}, first.x, first.x - 1);
    if OrderlyRun(s1, h, arrivals) {
      AnnouncedLossesAreTrue(s1, h, arrivals);
    }
  }
}
