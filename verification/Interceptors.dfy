/**
 The interceptor chain of an endpoint (src/interceptors/mod.rs and the two report interceptors
 under src/interceptors/report) and the handler that runs messages through it
 (src/handlers/interceptor.rs).

 A boxed interceptor owns the next one, so a chain is a value. The streams of a ReceiverReport are
 listed in the iteration order of their hash map, which may be any order.
 */
module Interceptors {
  import opened Types
  import Streams = ReceiverStreams

  datatype PacketType =
    | SenderReportType | ReceiverReportType | SourceDescriptionType | GoodbyeType
    | ApplicationDefinedType | TransportSpecificFeedbackType | PayloadSpecificFeedbackType

  datatype RtcpPacket =
    | SenderReportPacket(ssrc: nat, ntpTime: nat)
    | ReceiverReportPacket(report: Streams.ReceiverReport)
    | OtherPacket(packetType: PacketType, payload: seq<nat>)
  {
    function Type(): PacketType {
      match this
      case SenderReportPacket(_, _) => SenderReportType
      case ReceiverReportPacket(_) => ReceiverReportType
      case OtherPacket(t, _) => t
    }

    /** Reports between two neighbours, not meant for the far end. */
    predicate HopByHop() {
      Type() == ReceiverReportType || Type() == TransportSpecificFeedbackType
    }
  }

  datatype MessageEvent =
    | Rtp(packet: Streams.RtpPacket)
    | Rtcp(packets: seq<RtcpPacket>)
    | Bypassed(bytes: seq<nat>)

  datatype Tagged = Tagged(now: int, transport: TransportContext, message: MessageEvent)

  datatype InterceptorEvent = Inbound(msg: Tagged) | Outbound(msg: Tagged) | Failure(error: string)

  datatype Interceptor =
    | NoOp
    | SenderReport(next: Option<Interceptor>)
    | ReceiverReport(interval: nat, eto: int, streams: seq<Streams.Stream>, next: Option<Interceptor>)

  // ------------------------------------------------------------------ building a chain

  const ONE_SECOND := 1_000_000_000

  datatype ReportBuilder = ReportBuilder(isReceiver: bool, interval: Option<nat>) {
    function Build(now: int): Interceptor {
      if isReceiver then
        ReceiverReport(if interval.Some? then interval.value else ONE_SECOND, now, [], None)
      else SenderReport(None)
    }
  }

  function Chain(i: Interceptor, next: Interceptor): Interceptor {
    match i
    case NoOp => NoOp
    case SenderReport(_) => SenderReport(Some(next))
    case ReceiverReport(interval, eto, streams, _) => ReceiverReport(interval, eto, streams, Some(next))
  }

  /** The stages of a chain in the order in which messages meet them, the closing NoOp left out. */
  function Stages(i: Interceptor): seq<Interceptor> {
    match i
    case NoOp => []
    case SenderReport(next) => [SenderReport(None)] + if next.Some? then Stages(next.value) else []
    case ReceiverReport(interval, eto, streams, next) =>
      [ReceiverReport(interval, eto, streams, None)] + if next.Some? then Stages(next.value) else []
  }

  function Built(builders: seq<ReportBuilder>, now: int): seq<Interceptor> {
    seq(|builders|, k requires 0 <= k < |builders| => builders[k].Build(now))
  }

  class Registry {
    var builders: seq<ReportBuilder>

    constructor ()
      ensures builders == []
    {
      builders := [];
    }

    method Add(builder: ReportBuilder)
      modifies this
      ensures builders == old(builders) + [builder]
    {
      builders := builders + [builder];
    }

    /** The chain meets the registered interceptors in the order of their registration. */
    method Build(now: int) returns (next: Interceptor)
      ensures Stages(next) == Built(builders, now)
    {
      next := NoOp;
      var k := |builders|;
      while k > 0
        invariant 0 <= k <= |builders|
        invariant Stages(next) == Built(builders, now)[k..]
      {
        k := k - 1;
        var interceptor := builders[k].Build(now);
        next := Chain(interceptor, next);
        assert Built(builders, now)[k..] == [interceptor] + Built(builders, now)[k + 1..];
      }
    }
  }

  // ------------------------------------------------------------------ reading

  /** The packets worth forwarding, in order. */
  function Forwardable(packets: seq<RtcpPacket>): seq<RtcpPacket> {
    if packets == [] then []
    else
      var before := Forwardable(packets[..|packets| - 1]);
      var p := packets[|packets| - 1];
      if p.HopByHop() then before else before + [p]
  }

  /** The positions of the packets worth forwarding. */
  function ForwardedAt(packets: seq<RtcpPacket>): (at: seq<nat>)
    ensures forall k :: 0 <= k < |at| ==> at[k] < |packets|
    ensures forall j, k :: 0 <= j < k < |at| ==> at[j] < at[k]
  {
    if packets == [] then []
    else
      var n := |packets| - 1;
      ForwardedAt(packets[..n]) + if packets[n].HopByHop() then [] else [n]
  }

  /** The forwarded list is the incoming list at the increasing positions of `ForwardedAt`. */
  lemma {:induction false} ForwardableIsSubsequence(packets: seq<RtcpPacket>)
    ensures |Forwardable(packets)| == |ForwardedAt(packets)|
    ensures forall k :: 0 <= k < |ForwardedAt(packets)| ==> Forwardable(packets)[k] == packets[ForwardedAt(packets)[k]]
  {
    if packets != [] {
      var before := packets[..|packets| - 1];
      ForwardableIsSubsequence(before);
      forall k | 0 <= k < |ForwardedAt(packets)|
        ensures Forwardable(packets)[k] == packets[ForwardedAt(packets)[k]]
      {
        if k < |ForwardedAt(before)| {
          assert before[ForwardedAt(before)[k]] == packets[ForwardedAt(before)[k]];
        }
      }
    }
  }

  /** A packet is forwarded exactly when it is not hop by hop. */
  lemma {:induction false} ForwardedIffEndToEnd(packets: seq<RtcpPacket>, i: nat)
    requires i < |packets|
    ensures i in ForwardedAt(packets) <==> !packets[i].HopByHop()
  {
    var n := |packets| - 1;
    if i < n {
      ForwardedIffEndToEnd(packets[..n], i);
    } else {
      assert n !in ForwardedAt(packets[..n]);
    }
  }

  method FilterRtcp(packets: seq<RtcpPacket>) returns (inbound: seq<RtcpPacket>)
    ensures inbound == Forwardable(packets)
  {
    inbound := [];
    for k := 0 to |packets|
      invariant inbound == Forwardable(packets[..k])
    {
      assert packets[..k + 1][..k] == packets[..k];
      if !packets[k].HopByHop() {
        inbound := inbound + [packets[k]];
      }
    }
    assert packets[..|packets|] == packets;
  }

  function ForwardedBySenderReport(msg: Tagged): seq<InterceptorEvent> {
    if msg.message.Rtcp? && Forwardable(msg.message.packets) != [] then
      [Inbound(Tagged(msg.now, msg.transport, Rtcp(Forwardable(msg.message.packets))))]
    else []
  }

  function UpdateStream(streams: seq<Streams.Stream>, ssrc: nat,
                        f: Streams.Stream -> Streams.Stream): seq<Streams.Stream>
  {
    seq(|streams|, k requires 0 <= k < |streams| => if streams[k].ssrc == ssrc then f(streams[k]) else streams[k])
  }

  function NoteSenderReports(streams: seq<Streams.Stream>, now: int, packets: seq<RtcpPacket>): (r: seq<Streams.Stream>)
  {
    if packets == [] then streams
    else
      var before := NoteSenderReports(streams, now, packets[..|packets| - 1]);
      match packets[|packets| - 1]
      case SenderReportPacket(ssrc, ntp) => UpdateStream(before, ssrc, s => Streams.AfterSenderReport(s, now, ntp))
      case _ => before
  }

  /** What a ReceiverReport learns from a message. */
  function Noted(streams: seq<Streams.Stream>, msg: Tagged): seq<Streams.Stream> {
    match msg.message
    case Rtcp(packets) => NoteSenderReports(streams, msg.now, packets)
    case Rtp(packet) => UpdateStream(streams, packet.ssrc, s => Streams.AfterRtp(s, msg.now, packet))
    case Bypassed(_) => streams
  }

  method NoteMessage(streams: seq<Streams.Stream>, msg: Tagged) returns (noted: seq<Streams.Stream>)
    ensures noted == Noted(streams, msg)
  {
    noted := streams;
    match msg.message
    case Rtcp(packets) =>
      for k := 0 to |packets|
        invariant noted == NoteSenderReports(streams, msg.now, packets[..k])
      {
        assert packets[..k + 1][..k] == packets[..k];
        match packets[k]
        case SenderReportPacket(ssrc, ntp) =>
          noted := UpdateStream(noted, ssrc, s => Streams.AfterSenderReport(s, msg.now, ntp));
        case _ =>
      }
      assert packets[..|packets|] == packets;
    case Rtp(packet) =>
      noted := UpdateStream(noted, packet.ssrc, s => Streams.AfterRtp(s, msg.now, packet));
    case Bypassed(_) =>
  }

  /** Each stage after reading a message. */
  function StageAfterRead(i: Interceptor, msg: Tagged): Interceptor {
    match i
    case ReceiverReport(interval, eto, streams, next) => ReceiverReport(interval, eto, Noted(streams, msg), next)
    case _ => i
  }

  function StagesAfterRead(stages: seq<Interceptor>, msg: Tagged): seq<Interceptor> {
    if stages == [] then [] else [StageAfterRead(stages[0], msg)] + StagesAfterRead(stages[1..], msg)
  }

  function Copies(events: seq<InterceptorEvent>, stages: seq<Interceptor>): seq<InterceptorEvent> {
    if stages == [] then []
    else (if stages[0].SenderReport? then events else []) + Copies(events, stages[1..])
  }

  /**
   A message passes every stage of the chain. Each SenderReport stage answers with the filtered list
   of the incoming message, whatever the stages before it did.
   */
  method Read(i: Interceptor, msg: Tagged) returns (i': Interceptor, events: seq<InterceptorEvent>)
    ensures Stages(i') == StagesAfterRead(Stages(i), msg)
    ensures events == Copies(ForwardedBySenderReport(msg), Stages(i))
    decreases i
  {
    match i
    case NoOp =>
      i', events := NoOp, [];
    case SenderReport(next) =>
      events := [];
      if msg.message.Rtcp? {
        var inbound := FilterRtcp(msg.message.packets);
        if inbound != [] {
          events := [Inbound(Tagged(msg.now, msg.transport, Rtcp(inbound)))];
        }
      }
      if next.Some? {
        var next', rest := Read(next.value, msg);
        assert Stages(i)[1..] == Stages(next.value);
        i', events := SenderReport(Some(next')), events + rest;
      } else {
        i' := i;
      }
    case ReceiverReport(interval, eto, streams, next) =>
      var noted := NoteMessage(streams, msg);
      if next.Some? {
        var next', rest := Read(next.value, msg);
        assert Stages(i)[1..] == Stages(next.value);
        i', events := ReceiverReport(interval, eto, noted, Some(next')), rest;
      } else {
        i', events := ReceiverReport(interval, eto, noted, None), [];
      }
  }

  // ------------------------------------------------------------------ timeouts

  function ReportsTo(report: Streams.ReceiverReport, now: int, tuples: seq<FourTuple>): seq<InterceptorEvent> {
    seq(|tuples|, k requires 0 <= k < |tuples| =>
      Outbound(Tagged(now, TransportContext(tuples[k].local, tuples[k].peer, None),
          Rtcp([ReceiverReportPacket(report)]))))
  }

  ghost predicate StreamsInRange(streams: seq<Streams.Stream>) {
    forall k :: 0 <= k < |streams| ==> Streams.InRange(streams[k])
  }

  /** One report per stream, sent once to every transport. */
  ghost function Batch(streams: seq<Streams.Stream>, now: int, tuples: seq<FourTuple>): seq<InterceptorEvent>
    requires StreamsInRange(streams)
  {
    if streams == [] then []
    else
      var n := |streams| - 1;
      Batch(streams[..n], now, tuples) + ReportsTo(Streams.ReportOf(streams[n], now), now, tuples)
  }

  ghost function Reported(streams: seq<Streams.Stream>): seq<Streams.Stream>
    requires StreamsInRange(streams)
  {
    seq(|streams|, k requires 0 <= k < |streams| => Streams.AfterReport(streams[k]))
  }

  ghost predicate ChainInRange(stages: seq<Interceptor>) {
    forall k :: 0 <= k < |stages| && stages[k].ReceiverReport? ==> StreamsInRange(stages[k].streams)
  }

  predicate Due(i: Interceptor, now: int) { i.ReceiverReport? && i.eto <= now }

  ghost function StageAfterTimeout(i: Interceptor, now: int): Interceptor
    requires i.ReceiverReport? ==> StreamsInRange(i.streams)
  {
    if Due(i, now) then i.(eto := now + i.interval, streams := Reported(i.streams)) else i
  }

  ghost function StagesAfterTimeout(stages: seq<Interceptor>, now: int): seq<Interceptor>
    requires ChainInRange(stages)
  {
    if stages == [] then [] else [StageAfterTimeout(stages[0], now)] + StagesAfterTimeout(stages[1..], now)
  }

  ghost function Batches(stages: seq<Interceptor>, now: int, tuples: seq<FourTuple>): seq<InterceptorEvent>
    requires ChainInRange(stages)
  {
    if stages == [] then []
    else (if Due(stages[0], now) then Batch(stages[0].streams, now, tuples) else [])
         + Batches(stages[1..], now, tuples)
  }

  method SendReport(report: Streams.ReceiverReport, now: int, tuples: seq<FourTuple>)
    returns (events: seq<InterceptorEvent>)
    ensures events == ReportsTo(report, now, tuples)
  {
    events := [];
    for t := 0 to |tuples|
      invariant events == ReportsTo(report, now, tuples)[..t]
    {
      events := events
        + [Outbound(Tagged(now, TransportContext(tuples[t].local, tuples[t].peer, None),
            Rtcp([ReceiverReportPacket(report)])))];
    }
  }

  method EmitBatch(streams: seq<Streams.Stream>, now: int, tuples: seq<FourTuple>)
    returns (reported: seq<Streams.Stream>, events: seq<InterceptorEvent>)
    requires StreamsInRange(streams)
    ensures reported == Reported(streams)
    ensures events == Batch(streams, now, tuples)
  {
    reported, events := [], [];
    for k := 0 to |streams|
      invariant reported == Reported(streams)[..k]
      invariant events == Batch(streams[..k], now, tuples)
    {
      var report := Streams.ReportOf(streams[k], now);
      reported := reported + [Streams.AfterReport(streams[k])];
      var sent := SendReport(report, now, tuples);
      events := events + sent;
      assert streams[..k + 1][..k] == streams[..k];
    }
    assert streams[..|streams|] == streams;
  }

  /** A timeout reaches every stage; exactly the due ReceiverReports emit a batch and set a new deadline. */
  method PassTimeout(i: Interceptor, now: int, tuples: seq<FourTuple>)
    returns (i': Interceptor, events: seq<InterceptorEvent>)
    requires ChainInRange(Stages(i))
    ensures Stages(i') == StagesAfterTimeout(Stages(i), now)
    ensures events == Batches(Stages(i), now, tuples)
    decreases i
  {
    match i
    case NoOp =>
      i', events := NoOp, [];
    case SenderReport(next) =>
      assert Stages(i)[0] == SenderReport(None);
      if next.Some? {
        assert Stages(i)[1..] == Stages(next.value);
        var next', rest := PassTimeout(next.value, now, tuples);
        i', events := SenderReport(Some(next')), rest;
        assert Stages(i') == [SenderReport(None)] + Stages(next');
      } else {
        assert Stages(i)[1..] == [];
        i', events := i, [];
      }
    case ReceiverReport(interval, eto, streams, next) =>
      var eto', streams' := eto, streams;
      events := [];
      assert Stages(i)[0] == i.(next := None);
      if eto <= now {
        eto' := now + interval;
        streams', events := EmitBatch(streams, now, tuples);
      }
      if next.Some? {
        assert Stages(i)[1..] == Stages(next.value);
        var next', rest := PassTimeout(next.value, now, tuples);
        i', events := ReceiverReport(interval, eto', streams', Some(next')), events + rest;
        assert Stages(i') == [ReceiverReport(interval, eto', streams', None)] + Stages(next');
      } else {
        assert Stages(i)[1..] == [];
        i' := ReceiverReport(interval, eto', streams', None);
      }
  }

  /** The earliest deadline of the chain, if it comes before `eto`. */
  function Deadlines(stages: seq<Interceptor>): set<int> {
    set k | 0 <= k < |stages| && stages[k].ReceiverReport? :: stages[k].eto
  }

  /** Polling yields the least of the caller's deadline and the deadlines of all stages. */
  method PollTimeout(i: Interceptor, eto: int) returns (eto': int)
    ensures eto' in Deadlines(Stages(i)) + {eto}
    ensures forall d :: d in Deadlines(Stages(i)) + {eto} ==> eto' <= d
    decreases i
  {
    eto' := eto;
    match i
    case NoOp =>
    case SenderReport(next) =>
      if next.Some? {
        assert Stages(i)[1..] == Stages(next.value);
        eto' := PollTimeout(next.value, eto');
        DeadlinesSplit(Stages(i));
      }
    case ReceiverReport(interval, own, streams, next) =>
      if own < eto' {
        eto' := own;
      }
      if next.Some? {
        assert Stages(i)[1..] == Stages(next.value);
        eto' := PollTimeout(next.value, eto');
      } else {
        assert Stages(i)[1..] == [];
      }
      DeadlinesSplit(Stages(i));
  }

  lemma DeadlinesSplit(stages: seq<Interceptor>)
    requires stages != []
    ensures Deadlines(stages)
         == (if stages[0].ReceiverReport? then {stages[0].eto} else {}) + Deadlines(stages[1..])
  {
  }

  // ------------------------------------------------------------------ the handler

  function SenderReportStages(stages: seq<Interceptor>): nat {
    if stages == [] then 0
    else (if stages[0].SenderReport? then 1 else 0) + SenderReportStages(stages[1..])
  }

  /** What the handler behind the chain gets to read for one incoming message. */
  function ReachesGateway(stages: seq<Interceptor>, msg: Tagged): seq<Tagged> {
    match msg.message
    case Rtcp(packets) =>
      if Forwardable(packets) == [] then []
      else
        seq(SenderReportStages(stages), _ => Tagged(msg.now, msg.transport, Rtcp(Forwardable(packets))))
    case _ => [msg]
  }

  lemma {:induction false} CopiesPerSenderReport(events: seq<InterceptorEvent>, stages: seq<Interceptor>)
    requires |events| <= 1
    ensures Copies(events, stages)
         == if events == [] then [] else seq(SenderReportStages(stages), _ => events[0])
  {
    if stages != [] {
      CopiesPerSenderReport(events, stages[1..]);
    }
  }

  lemma NothingHopByHop(packets: seq<RtcpPacket>, p: RtcpPacket)
    requires p in Forwardable(packets)
    ensures p in packets && !p.HopByHop()
  {
  }

  function InboundOf(events: seq<InterceptorEvent>): seq<Tagged> {
    if events == [] then []
    else
      var n := |events| - 1;
      InboundOf(events[..n]) + if events[n].Inbound? then [events[n].msg] else []
  }

  function OutboundOf(events: seq<InterceptorEvent>): seq<Tagged> {
    if events == [] then []
    else
      var n := |events| - 1;
      OutboundOf(events[..n]) + if events[n].Outbound? then [events[n].msg] else []
  }

  function FailuresOf(events: seq<InterceptorEvent>): seq<string> {
    if events == [] then []
    else
      var n := |events| - 1;
      FailuresOf(events[..n]) + if events[n].Failure? then [events[n].error] else []
  }

  /** Sorts the events of a chain by where they go, keeping their order. */
  method Dispatch(events: seq<InterceptorEvent>)
    returns (inbound: seq<Tagged>, outbound: seq<Tagged>, failures: seq<string>)
    ensures inbound == InboundOf(events)
    ensures outbound == OutboundOf(events)
    ensures failures == FailuresOf(events)
  {
    inbound, outbound, failures := [], [], [];
    for k := 0 to |events|
      invariant inbound == InboundOf(events[..k])
      invariant outbound == OutboundOf(events[..k])
      invariant failures == FailuresOf(events[..k])
    {
      assert events[..k + 1][..k] == events[..k];
      match events[k]
      case Inbound(msg) => inbound := inbound + [msg];
      case Outbound(msg) => outbound := outbound + [msg];
      case Failure(err) => failures := failures + [err];
    }
    assert events[..|events|] == events;
  }

  lemma {:induction false} RepeatedInbound(msg: Tagged, n: nat)
    ensures var events := seq(n, _ => Inbound(msg));
            InboundOf(events) == seq(n, _ => msg) && OutboundOf(events) == [] && FailuresOf(events) == []
  {
    if n > 0 {
      RepeatedInbound(msg, n - 1);
      var events := seq(n, _ => Inbound(msg));
      assert events[..n - 1] == seq(n - 1, _ => Inbound(msg));
    }
  }

  /** The chain's inbound events for a message are one filtered copy per SenderReport stage. */
  lemma ForwardedCopies(stages: seq<Interceptor>, msg: Tagged)
    ensures var events := Copies(ForwardedBySenderReport(msg), stages);
      && OutboundOf(events) == [] && FailuresOf(events) == []
      && InboundOf(events) == if msg.message.Rtcp? then ReachesGateway(stages, msg) else []
  {
    CopiesPerSenderReport(ForwardedBySenderReport(msg), stages);
    if ForwardedBySenderReport(msg) != [] {
      RepeatedInbound(ForwardedBySenderReport(msg)[0].msg, SenderReportStages(stages));
    }
  }

  class InterceptorHandler {
    var transmits: seq<Tagged>

    constructor ()
      ensures transmits == []
    {
      transmits := [];
    }

    /**
     `interceptor` is the chain of the endpoint that owns the message's four-tuple, or the error of
     looking it up. RTCP ends here, except for what the chain forwards; anything else goes on.
     */
    method HandleRead(interceptor: Result<Interceptor>, msg: Tagged)
      returns (interceptor': Result<Interceptor>, fired: seq<Tagged>, exceptions: seq<string>)
      modifies this
      ensures transmits == old(transmits)
      ensures fired == if interceptor.Ok? then ReachesGateway(Stages(interceptor.value), msg)
                       else if msg.message.Rtcp? then [] else [msg]
      ensures forall m, p :: m in fired && m.message.Rtcp? && p in m.message.packets ==> !p.HopByHop()
      ensures exceptions == if interceptor.Err? && !msg.message.Bypassed? then [interceptor.error] else []
      ensures interceptor'.Ok? <==> interceptor.Ok?
      ensures interceptor.Ok? && !msg.message.Bypassed? ==>
                Stages(interceptor'.value) == StagesAfterRead(Stages(interceptor.value), msg)
    {
      interceptor', fired, exceptions := interceptor, [], [];
      if msg.message.Rtp? || msg.message.Rtcp? {
        match interceptor
        case Ok(chain) =>
          var chain', events := Read(chain, msg);
          interceptor' := Ok(chain');
          ForwardedCopies(Stages(chain), msg);
          var outbound;
          fired, outbound, exceptions := Dispatch(events);
          transmits := transmits + outbound;
        case Err(err) =>
          exceptions := [err];
      }
      if !msg.message.Rtcp? {
        fired := fired + [msg];
      }
      forall m, p | m in fired && m.message.Rtcp? && p in m.message.packets
        ensures !p.HopByHop()
      {
        NothingHopByHop(msg.message.packets, p);
      }
    }

    /** `endpoints` lists every endpoint of every session, in any order. */
    method HandleTimeout(endpoints: seq<Attached>, now: int)
      returns (endpoints': seq<Attached>, exceptions: seq<string>)
      requires AllInRange(endpoints)
      modifies this
      ensures transmits == old(transmits) + OutboundOf(AllBatches(endpoints, now))
      ensures exceptions == []
      ensures |endpoints'| == |endpoints|
      ensures forall k :: 0 <= k < |endpoints| ==> TimedOut(endpoints[k], endpoints'[k], now)
    {
      var events := [];
      endpoints' := [];
      for k := 0 to |endpoints|
        invariant transmits == old(transmits)
        invariant events == AllBatches(endpoints[..k], now)
        invariant |endpoints'| == k
        invariant forall j :: 0 <= j < k ==> TimedOut(endpoints[j], endpoints'[j], now)
      {
        var chain, more := PassTimeout(endpoints[k].chain, now, endpoints[k].tuples);
        events := events + more;
        endpoints' := endpoints' + [Attached(chain, endpoints[k].tuples)];
        assert endpoints[..k + 1][..k] == endpoints[..k];
      }
      assert endpoints[..|endpoints|] == endpoints;
      BatchesNeverFail(endpoints, now);
      var inbound, outbound;
      inbound, outbound, exceptions := Dispatch(events);
      transmits := transmits + outbound;
    }
  }

  /** An endpoint's chain with the four-tuples of its transports. */
  datatype Attached = Attached(chain: Interceptor, tuples: seq<FourTuple>)

  /** The same endpoint after its chain got the timeout. */
  ghost predicate TimedOut(e: Attached, e': Attached, now: int) {
    && e'.tuples == e.tuples
    && ChainInRange(Stages(e.chain))
    && Stages(e'.chain) == StagesAfterTimeout(Stages(e.chain), now)
  }

  ghost predicate AllInRange(endpoints: seq<Attached>) {
    forall k :: 0 <= k < |endpoints| ==> ChainInRange(Stages(endpoints[k].chain))
  }

  ghost function AllBatches(endpoints: seq<Attached>, now: int): seq<InterceptorEvent>
    requires AllInRange(endpoints)
  {
    if endpoints == [] then []
    else
      var n := |endpoints| - 1;
      AllBatches(endpoints[..n], now) + Batches(Stages(endpoints[n].chain), now, endpoints[n].tuples)
  }

  // ------------------------------------------------------------------ chains over time

  lemma {:induction false} StagesAfterReadAt(stages: seq<Interceptor>, msg: Tagged, k: nat)
    requires k < |stages|
    ensures |StagesAfterRead(stages, msg)| == |stages|
    ensures StagesAfterRead(stages, msg)[k] == StageAfterRead(stages[k], msg)
  {
    if |stages| > 1 {
      StagesAfterReadAt(stages[1..], msg, if k == 0 then 0 else k - 1);
    }
  }

  lemma {:induction false} StagesAfterTimeoutAt(stages: seq<Interceptor>, now: int, k: nat)
    requires ChainInRange(stages)
    requires k < |stages|
    ensures |StagesAfterTimeout(stages, now)| == |stages|
    ensures StagesAfterTimeout(stages, now)[k] == StageAfterTimeout(stages[k], now)
  {
    if |stages| > 1 {
      StagesAfterTimeoutAt(stages[1..], now, if k == 0 then 0 else k - 1);
    }
  }

  datatype Step = ReadStep(msg: Tagged) | TimeoutStep(now: int)

  ghost function StagesAfterStep(stages: seq<Interceptor>, step: Step): seq<Interceptor>
    requires ChainInRange(stages)
  {
    match step
    case ReadStep(msg) => StagesAfterRead(stages, msg)
    case TimeoutStep(now) => StagesAfterTimeout(stages, now)
  }

  lemma {:induction false} NotedInRange(streams: seq<Streams.Stream>, now: int, packets: seq<RtcpPacket>)
    requires StreamsInRange(streams)
    ensures StreamsInRange(NoteSenderReports(streams, now, packets))
  {
    if packets != [] {
      NotedInRange(streams, now, packets[..|packets| - 1]);
    }
  }

  lemma StepKeepsStage(stages: seq<Interceptor>, step: Step, k: nat)
    requires ChainInRange(stages) && k < |stages|
    ensures |StagesAfterStep(stages, step)| == |stages|
    ensures var i, i' := stages[k], StagesAfterStep(stages, step)[k];
      && i'.SenderReport? == i.SenderReport?
      && i'.ReceiverReport? == i.ReceiverReport?
      && (i.ReceiverReport? ==>
            && StreamsInRange(i'.streams)
            && i'.interval == i.interval
            && i'.eto == if step.TimeoutStep? && Due(i, step.now) then step.now + i.interval else i.eto)
  {
    match step
    case ReadStep(msg) =>
      StagesAfterReadAt(stages, msg, k);
      if stages[k].ReceiverReport? && msg.message.Rtcp? {
        NotedInRange(stages[k].streams, msg.now, msg.message.packets);
      }
    case TimeoutStep(now) =>
      StagesAfterTimeoutAt(stages, now, k);
      if Due(stages[k], now) {
        forall j | 0 <= j < |stages[k].streams|
          ensures Streams.InRange(Streams.AfterReport(stages[k].streams[j]))
        {
        }
      }
  }

  lemma StepKeepsChain(stages: seq<Interceptor>, step: Step)
    requires ChainInRange(stages)
    ensures |StagesAfterStep(stages, step)| == |stages|
    ensures ChainInRange(StagesAfterStep(stages, step))
  {
    if stages == [] {
      assert StagesAfterStep(stages, step) == [];
    } else {
      StepKeepsStage(stages, step, 0);
      forall k | 0 <= k < |stages|
        ensures var i := StagesAfterStep(stages, step)[k]; i.ReceiverReport? ==> StreamsInRange(i.streams)
      {
        StepKeepsStage(stages, step, k);
      }
    }
  }

  /** The times at which stage `k` emits a batch during a run. */
  ghost function BatchTimes(stages: seq<Interceptor>, k: nat, run: seq<Step>): seq<int>
    requires ChainInRange(stages) && k < |stages|
    decreases |run|
  {
    if run == [] then []
    else
      StepKeepsChain(stages, run[0]);
      (if run[0].TimeoutStep? && Due(stages[k], run[0].now) then [run[0].now] else [])
      + BatchTimes(StagesAfterStep(stages, run[0]), k, run[1..])
  }

  /** No time before `first`, and any two at least `gap` apart. */
  ghost predicate SpacedFrom(times: seq<int>, first: int, gap: nat) {
    && (forall j :: 0 <= j < |times| ==> first <= times[j])
    && (forall i, j :: 0 <= i < j < |times| ==> times[i] + gap <= times[j])
  }

  /** Whatever happens in between, two batches of a ReceiverReport are at least its interval apart. */
  lemma {:induction false} BatchesAreSpaced(stages: seq<Interceptor>, k: nat, run: seq<Step>)
    requires ChainInRange(stages) && k < |stages| && stages[k].ReceiverReport?
    ensures SpacedFrom(BatchTimes(stages, k, run), stages[k].eto, stages[k].interval)
    decreases |run|
  {
    if run != [] {
      StepKeepsChain(stages, run[0]);
      StepKeepsStage(stages, run[0], k);
      BatchesAreSpaced(StagesAfterStep(stages, run[0]), k, run[1..]);
      var rest := BatchTimes(StagesAfterStep(stages, run[0]), k, run[1..]);
      var due := run[0].TimeoutStep? && Due(stages[k], run[0].now);
      assert BatchTimes(stages, k, run) == if due then [run[0].now] + rest else rest;
    }
  }

  /** Timeouts only send; nothing they produce travels inwards. */
  lemma {:induction false} BatchesGoOut(stages: seq<Interceptor>, now: int, tuples: seq<FourTuple>)
    requires ChainInRange(stages)
    ensures forall e :: e in Batches(stages, now, tuples) ==> e.Outbound?
  {
    if stages != [] {
      if Due(stages[0], now) {
        BatchGoesOut(stages[0].streams, now, tuples);
      }
      BatchesGoOut(stages[1..], now, tuples);
    }
  }

  lemma {:induction false} BatchGoesOut(streams: seq<Streams.Stream>, now: int, tuples: seq<FourTuple>)
    requires StreamsInRange(streams)
    ensures forall e :: e in Batch(streams, now, tuples) ==> e.Outbound?
  {
    if streams != [] {
      var n := |streams| - 1;
      BatchGoesOut(streams[..n], now, tuples);
      assert forall e :: e in ReportsTo(Streams.ReportOf(streams[n], now), now, tuples) ==> e.Outbound?;
    }
  }

  lemma {:induction false} AllBatchesGoOut(endpoints: seq<Attached>, now: int)
    requires AllInRange(endpoints)
    ensures forall e :: e in AllBatches(endpoints, now) ==> e.Outbound?
  {
    if endpoints != [] {
      var n := |endpoints| - 1;
      AllBatchesGoOut(endpoints[..n], now);
      BatchesGoOut(Stages(endpoints[n].chain), now, endpoints[n].tuples);
    }
  }

  lemma BatchesNeverFail(endpoints: seq<Attached>, now: int)
    requires AllInRange(endpoints)
    ensures FailuresOf(AllBatches(endpoints, now)) == []
  {
    AllBatchesGoOut(endpoints, now);
    NoFailures(AllBatches(endpoints, now));
  }

  lemma {:induction false} NoFailures(events: seq<InterceptorEvent>)
    requires forall e :: e in events ==> e.Outbound?
    ensures FailuresOf(events) == []
  {
    if events != [] {
      assert events[|events| - 1] in events;
      NoFailures(events[..|events| - 1]);
    }
  }

  // ------------------------------------------------------------------ what a batch and a stream say

  /** The event is the report of this stream, to this transport. */
  ghost predicate IsReportTo(e: InterceptorEvent, s: Streams.Stream, ft: FourTuple, now: int)
    requires Streams.InRange(s)
  {
    && e.Outbound? && e.msg.now == now
    && e.msg.transport.Tuple() == ft && e.msg.transport.ecn == None
    && e.msg.message == Rtcp([ReceiverReportPacket(Streams.ReportOf(s, now))])
  }

  /** The event is the report of this stream, to one of these transports. */
  ghost predicate IsReportOf(e: InterceptorEvent, s: Streams.Stream, tuples: seq<FourTuple>, now: int)
    requires Streams.InRange(s)
  {
    exists j :: 0 <= j < |tuples| && IsReportTo(e, s, tuples[j], now)
  }

  lemma ReportsReach(s: Streams.Stream, now: int, tuples: seq<FourTuple>, e: InterceptorEvent)
    requires Streams.InRange(s)
    ensures e in ReportsTo(Streams.ReportOf(s, now), now, tuples) <==> IsReportOf(e, s, tuples, now)
  {
    var all := ReportsTo(Streams.ReportOf(s, now), now, tuples);
    if e in all {
      var j :| 0 <= j < |all| && all[j] == e;
      assert IsReportTo(e, s, tuples[j], now);
    }
    if j :| 0 <= j < |tuples| && IsReportTo(e, s, tuples[j], now) {
      assert all[j] == e;
    }
  }

  lemma {:induction false} BatchCounts(streams: seq<Streams.Stream>, now: int, tuples: seq<FourTuple>)
    requires StreamsInRange(streams)
    ensures |Batch(streams, now, tuples)| == |streams| * |tuples|
  {
    if streams != [] {
      BatchCounts(streams[..|streams| - 1], now, tuples);
      OnceMore(|streams| - 1, |tuples|);
    }
  }

  lemma OnceMore(n: nat, t: nat)
    ensures (n + 1) * t == n * t + t
  {
  }

  /** A batch holds the report of every stream to every transport, and nothing else. */
  lemma {:induction false} BatchIsExact(streams: seq<Streams.Stream>, now: int, tuples: seq<FourTuple>,
                                        e: InterceptorEvent)
    requires StreamsInRange(streams)
    ensures e in Batch(streams, now, tuples)
       <==> exists k :: 0 <= k < |streams| && IsReportOf(e, streams[k], tuples, now)
  {
    if streams != [] {
      var n := |streams| - 1;
      BatchIsExact(streams[..n], now, tuples, e);
      ReportsReach(streams[n], now, tuples, e);
      if k :| 0 <= k < n && IsReportOf(e, streams[k], tuples, now) {
        assert streams[..n][k] == streams[k];
      }
    }
  }

  /** The sender reports of one source in a compound packet. */
  function SenderReportsOf(packets: seq<RtcpPacket>, ssrc: nat): seq<nat> {
    if packets == [] then []
    else
      var n := |packets| - 1;
      SenderReportsOf(packets[..n], ssrc)
      + if packets[n].SenderReportPacket? && packets[n].ssrc == ssrc then [packets[n].ntpTime] else []
  }

  /** A stream keeps the last sender report of its own source, and other streams nothing of it. */
  lemma {:induction false} SenderReportsAreNoted(streams: seq<Streams.Stream>, now: int, packets: seq<RtcpPacket>,
                                                 k: nat)
    requires k < |streams|
    ensures |NoteSenderReports(streams, now, packets)| == |streams|
    ensures var times := SenderReportsOf(packets, streams[k].ssrc);
      NoteSenderReports(streams, now, packets)[k]
      == if times == [] then streams[k] else Streams.AfterSenderReport(streams[k], now, times[|times| - 1])
  {
    if packets != [] {
      SenderReportsAreNoted(streams, now, packets[..|packets| - 1], k);
    }
  }

  /** Reading a message, a stream takes in a packet of its own source, and the sender reports about it. */
  lemma StreamsTakeIn(streams: seq<Streams.Stream>, msg: Tagged, k: nat)
    requires k < |streams|
    ensures |Noted(streams, msg)| == |streams|
    ensures msg.message.Rtp? ==> Noted(streams, msg)[k] == if msg.message.packet.ssrc == streams[k].ssrc
                                   then Streams.AfterRtp(streams[k], msg.now, msg.message.packet) else streams[k]
    ensures msg.message.Bypassed? ==> Noted(streams, msg)[k] == streams[k]
  {
    if msg.message.Rtcp? {
      SenderReportsAreNoted(streams, msg.now, msg.message.packets, k);
    }
  }

  // ------------------------------------------------------------------ no stream is ever registered

  ghost predicate NoStreams(stages: seq<Interceptor>) {
    forall k :: 0 <= k < |stages| && stages[k].ReceiverReport? ==> stages[k].streams == []
  }

  lemma {:induction false} NothingIsNoted(now: int, packets: seq<RtcpPacket>)
    ensures NoteSenderReports([], now, packets) == []
  {
    if packets != [] {
      NothingIsNoted(now, packets[..|packets| - 1]);
    }
  }

  /** Neither a message nor a timeout gives a stage a stream. */
  lemma StepKeepsNoStreams(stages: seq<Interceptor>, step: Step)
    requires NoStreams(stages)
    ensures ChainInRange(stages) && NoStreams(StagesAfterStep(stages, step))
  {
    StepKeepsChain(stages, step);
    forall k | 0 <= k < |stages| && StagesAfterStep(stages, step)[k].ReceiverReport?
      ensures StagesAfterStep(stages, step)[k].streams == []
    {
      StepKeepsStage(stages, step, k);
      if step.ReadStep? {
        StagesAfterReadAt(stages, step.msg, k);
        if step.msg.message.Rtcp? {
          NothingIsNoted(step.msg.now, step.msg.message.packets);
        }
      } else {
        StagesAfterTimeoutAt(stages, step.now, k);
      }
    }
  }

  ghost function StagesAfterRun(stages: seq<Interceptor>, run: seq<Step>): seq<Interceptor>
    requires ChainInRange(stages)
    decreases |run|
  {
    if run == [] then stages
    else
      StepKeepsChain(stages, run[0]);
      StagesAfterRun(StagesAfterStep(stages, run[0]), run[1..])
  }

  lemma {:induction false} RunKeepsNoStreams(stages: seq<Interceptor>, run: seq<Step>)
    requires NoStreams(stages)
    ensures ChainInRange(stages) && NoStreams(StagesAfterRun(stages, run))
    decreases |run|
  {
    if run != [] {
      StepKeepsNoStreams(stages, run[0]);
      RunKeepsNoStreams(StagesAfterStep(stages, run[0]), run[1..]);
    }
  }

  lemma {:induction false} NoBatches(stages: seq<Interceptor>, now: int, tuples: seq<FourTuple>)
    requires NoStreams(stages)
    ensures ChainInRange(stages) && Batches(stages, now, tuples) == []
  {
    if stages != [] {
      NoBatches(stages[1..], now, tuples);
    }
  }

  /** Whatever is registered and whatever happens, no timeout of a chain that was built ever sends a report. */
  lemma NoReportIsEverSent(builders: seq<ReportBuilder>, start: int, run: seq<Step>, now: int, tuples: seq<FourTuple>)
    ensures ChainInRange(Built(builders, start))
    ensures var stages := StagesAfterRun(Built(builders, start), run);
            ChainInRange(stages) && Batches(stages, now, tuples) == []
  {
    RunKeepsNoStreams(Built(builders, start), run);
    NoBatches(StagesAfterRun(Built(builders, start), run), now, tuples);
  }
}
