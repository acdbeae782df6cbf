/**
 What a client's answer records: the current direction of each transceiver, from the server's point of view
 (src/session/mod.rs).
 */
module ClientAnswers {
  import opened Types
  import opened Directions
  import opened Sdp
  import opened Endpoints
  import opened SdpGeneration
  import opened Sessions
  import opened ServerStates
  import opened Runs
  import opened IndexAgreement
  import opened Negotiations

  function MediaOf(sections: seq<RemoteMedia>): seq<Media> {
    seq(|sections|, k requires 0 <= k < |sections| => sections[k].media)
  }

  /** What the server's side does when the client's side of a section says this. */
  ghost predicate Answering(client: Direction, server: Direction) {
    || (client == Recvonly && server == Sendonly)
    || (client == Sendonly && server == Recvonly)
    || (client == Sendrecv && server == Sendrecv)
    || (client == Inactive && server == Inactive)
  }

  /** The transceiver with the direction that the last section with its mid records; without any, as it was. */
  ghost predicate Recorded(t: Transceiver, t': Transceiver, last: Option<Direction>) {
    match last
    case None => t' == t
    case Some(client) => Answering(client, t'.currentDirection) && t' == t.(currentDirection := t'.currentDirection)
  }

  /** One endpoint after an answer: its transceivers are recorded section by section, and nothing else changes. */
  ghost predicate Answered(e: Endpoint, e': Endpoint, media: seq<Media>) {
    && e'.transceivers.Keys == e.transceivers.Keys
    && e' == e.(transceivers := e'.transceivers)
    && forall m :: m in e.transceivers ==> Recorded(e.transceivers[m], e'.transceivers[m], LastDirection(media, m))
  }

  ghost predicate OthersStay(s: Session, s': Session, a: EndpointId) {
    && s'.id == s.id && s'.endpoints.Keys == s.endpoints.Keys
    && forall b :: b in s.endpoints && b != a ==> s'.endpoints[b] == s.endpoints[b]
  }

  lemma OneSectionAnswered(s: Session, a: EndpointId, section: RemoteMedia)
    requires a in s.endpoints && AfterAnsweredSection(s, a, section).1.Ok?
    ensures OthersStay(s, AfterAnsweredSection(s, a, section).0, a)
    ensures Answered(s.endpoints[a], AfterAnsweredSection(s, a, section).0.endpoints[a], [section.media])
  {
    var e, e' := s.endpoints[a], AfterAnsweredSection(s, a, section).0.endpoints[a];
    assert [section.media][1..] == [];
    assert e' == e.(transceivers := e'.transceivers);
  }

  lemma LastOfMore(first: Media, rest: seq<Media>, m: Mid)
    ensures LastDirection([first] + rest, m)
         == if LastDirection(rest, m).Some? then LastDirection(rest, m) else LastDirection([first], m)
  {
    assert ([first] + rest)[1..] == rest && [first][1..] == [];
  }

  lemma RecordedThen(t: Transceiver, t1: Transceiver, t2: Transceiver, first: Option<Direction>,
                     last: Option<Direction>)
    requires Recorded(t, t1, first) && Recorded(t1, t2, last)
    ensures Recorded(t, t2, if last.Some? then last else first)
  {
  }

  lemma AnsweredThen(e: Endpoint, e1: Endpoint, e2: Endpoint, first: Media, rest: seq<Media>)
    requires Answered(e, e1, [first]) && Answered(e1, e2, rest)
    ensures Answered(e, e2, [first] + rest)
  {
    forall m | m in e.transceivers
      ensures Recorded(e.transceivers[m], e2.transceivers[m], LastDirection([first] + rest, m))
    {
      LastOfMore(first, rest, m);
      RecordedThen(e.transceivers[m], e1.transceivers[m], e2.transceivers[m], LastDirection([first], m),
          LastDirection(rest, m));
    }
  }

  lemma NothingAnswered(e: Endpoint)
    ensures Answered(e, e, [])
  {
  }

  /** A whole answer that is applied without an error. */
  lemma {:induction false} SectionsAnswered(s: Session, a: EndpointId, sections: seq<RemoteMedia>)
    requires a in s.endpoints && AfterSections(s, a, true, sections).1.Ok?
    ensures OthersStay(s, AfterSections(s, a, true, sections).0, a)
    ensures Answered(s.endpoints[a], AfterSections(s, a, true, sections).0.endpoints[a], MediaOf(sections))
    decreases |sections|
  {
    if sections == [] {
      assert MediaOf(sections) == [];
      NothingAnswered(s.endpoints[a]);
    } else {
      var s1 := AfterAnsweredSection(s, a, sections[0]).0;
      OneSectionAnswered(s, a, sections[0]);
      SectionsAnswered(s1, a, sections[1..]);
      assert MediaOf(sections) == [sections[0].media] + MediaOf(sections[1..]);
      AnsweredThen(s.endpoints[a], s1.endpoints[a], AfterSections(s1, a, true, sections[1..]).0.endpoints[a],
          sections[0].media, MediaOf(sections[1..]));
    }
  }

  /** The section is one that an answer fails on: a track under an empty mid. */
  predicate Refused(m: Media) { Negotiable(m) && MidOf(m) == Some("") }

  ghost predicate NoneRefused(media: seq<Media>) {
    forall k :: 0 <= k < |media| ==> !Refused(media[k])
  }

  /** How many sections come before the first that fails. */
  function BeforeRefused(sections: seq<RemoteMedia>): (n: nat)
    ensures n <= |sections|
  {
    if sections == [] || Refused(sections[0].media) then 0 else 1 + BeforeRefused(sections[1..])
  }

  lemma NoneRefusedFirst(sections: seq<RemoteMedia>)
    requires sections != []
    ensures NoneRefused(MediaOf(sections)) <==> !Refused(sections[0].media) && NoneRefused(MediaOf(sections[1..]))
  {
    var media, rest := MediaOf(sections), MediaOf(sections[1..]);
    assert media[0] == sections[0].media;
    assert forall k :: 0 <= k < |rest| ==> rest[k] == media[k + 1];
    if NoneRefused(rest) && !Refused(media[0]) {
      forall k | 0 <= k < |media|
        ensures !Refused(media[k])
      {
        assert k > 0 ==> media[k] == rest[k - 1];
      }
    }
  }

  lemma {:induction false} BeforeRefusedIs(sections: seq<RemoteMedia>)
    ensures NoneRefused(MediaOf(sections[..BeforeRefused(sections)]))
    ensures BeforeRefused(sections) < |sections| ==> Refused(sections[BeforeRefused(sections)].media)
    ensures BeforeRefused(sections) == |sections| <==> NoneRefused(MediaOf(sections))
  {
    var n := BeforeRefused(sections);
    if sections != [] && !Refused(sections[0].media) {
      BeforeRefusedIs(sections[1..]);
      assert sections[1..][..n - 1] == sections[..n][1..];
      NoneRefusedFirst(sections);
      NoneRefusedFirst(sections[..n]);
    } else if sections != [] {
      NoneRefusedFirst(sections);
    }
  }

  /**
   An answer is applied up to the first section that offers a track under an empty mid, and without an error exactly
   if there is none. The sections before it are recorded, and no other endpoint is touched.
   */
  lemma {:induction false} AnswerIsAppliedUpTo(s: Session, a: EndpointId, sections: seq<RemoteMedia>)
    requires a in s.endpoints
    ensures AfterSections(s, a, true, sections).1.Ok? <==> BeforeRefused(sections) == |sections|
    ensures var applied := sections[..BeforeRefused(sections)];
      && AfterSections(s, a, true, applied).1.Ok?
      && AfterSections(s, a, true, sections).0 == AfterSections(s, a, true, applied).0
    decreases |sections|
  {
    if sections != [] && !Refused(sections[0].media) {
      var n := BeforeRefused(sections);
      SectionKeepsKeys(s, a, true, sections[0]);
      AnswerIsAppliedUpTo(AfterAnsweredSection(s, a, sections[0]).0, a, sections[1..]);
      assert sections[..n][1..] == sections[1..][..n - 1];
    }
  }

  /** The two together, for any answer. */
  lemma ClientAnswerRecords(s: Session, a: EndpointId, d: RemoteDescription)
    requires a in s.endpoints && d.sdpType == Answer
    ensures AfterRemote(s, a, d).1.Ok? <==> NoneRefused(MediaOf(d.sections))
    ensures OthersStay(s, AfterRemote(s, a, d).0, a)
    ensures Answered(s.endpoints[a], AfterRemote(s, a, d).0.endpoints[a],
            MediaOf(d.sections[..BeforeRefused(d.sections)]))
  {
    AnswerIsAppliedUpTo(s, a, d.sections);
    BeforeRefusedIs(d.sections);
    SectionsAnswered(s, a, d.sections[..BeforeRefused(d.sections)]);
  }

  /** Every other session, the index and the candidates stay. */
  ghost predicate OnlySession(st: State, st': State, sid: SessionId) {
    && st'.index == st.index && st'.candidates == st.candidates && st'.sessions.Keys == st.sessions.Keys
    && forall s :: s in st.sessions && s != sid ==> st'.sessions[s] == st.sessions[s]
  }

  /** An answer in band is recorded in the endpoint that holds the transport it came over, and nowhere else. */
  lemma InBandAnswerRecords(st: State, config: SdpConfig, ev: Event, sid: SessionId, a: EndpointId)
    requires Agreement(st) && Enabled(st, config, ev) && ev.MessageEvent? && Holds(st, sid, a, ev.ctx.Tuple())
    requires ev.sdp.Ok? && ev.sdp.value.sdpType == Answer && ev.sdp.value.parsed.Ok?
    ensures var sections, st' := ev.sdp.value.parsed.value.sections, Next(st, config, ev);
      && OnlySession(st, st', sid) && OthersStay(st.sessions[sid], st'.sessions[sid], a)
      && Answered(st.sessions[sid].endpoints[a], st'.sessions[sid].endpoints[a],
                  MediaOf(sections[..BeforeRefused(sections)]))
  {
    assert st.index[ev.ctx.Tuple()] == (sid, a);
    var d := RemoteDescription(Answer, ev.sdp.value.parsed.value.sections);
    ClientAnswerRecords(st.sessions[sid], a, d);
    assert Next(st, config, ev) == PutSession(st, sid, AfterRemote(st.sessions[sid], a, d).0);
  }
}
