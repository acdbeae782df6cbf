/**
 The tracks of a session: which transceivers an endpoint holds and in which direction, and what each
 operation does to them (src/session/mod.rs, src/handlers/gateway.rs).
 */
module Tracks {
  import opened Types
  import opened Directions
  import opened Sdp
  import opened Endpoints
  import opened MirrorKeys
  import opened Sessions
  import opened Gateway

  /** The direction of the transceiver that endpoint `a` holds under mid `m`. */
  function DirectionAt(s: Session, a: EndpointId, m: Mid): Option<Direction> {
    if a in s.endpoints && m in s.endpoints[a].transceivers
    then Some(s.endpoints[a].transceivers[m].direction)
    else None
  }

  /** The server receives track `m` of endpoint `a`. */
  predicate Source(s: Session, a: EndpointId, m: Mid) { DirectionAt(s, a, m) == Some(Recvonly) }

  /** Endpoint `b` is sent track `m` of endpoint `a`. */
  predicate Mirror(s: Session, b: EndpointId, a: EndpointId, m: Mid) {
    DirectionAt(s, b, MirrorKey(a, m)) == Some(Sendonly)
  }

  ghost predicate EveryoneMirrors(s: Session, a: EndpointId, m: Mid) {
    forall b :: b in s.endpoints && b != a ==> Mirror(s, b, a, m)
  }

  /** The same endpoints with the same tracks. */
  ghost predicate SameTracks(s: Session, s': Session) {
    && s'.endpoints.Keys == s.endpoints.Keys
    && forall a: EndpointId, m: Mid :: DirectionAt(s', a, m) == DirectionAt(s, a, m)
  }

  // ------------------------------------------------------------------ publishing

  /** What publishing does to every transceiver of every endpoint. */
  lemma PublishedDirection(s: Session, c: EndpointId, x: Mid, d: Direction, kind: Kind, track: Track, b: EndpointId,
                           m: Mid)
    requires c in s.endpoints
    ensures DirectionAt(Published(s, c, x, d, kind, track), b, m)
         == if b == c then
              if m == x then Some(if d == Recvonly then Sendonly else Recvonly) else DirectionAt(s, b, m)
            else if b in s.endpoints && m == MirrorKey(c, x) && (DirectionAt(s, b, m).Some? || d == Sendonly)
            then Some(d)
            else DirectionAt(s, b, m)
  {
  }

  /** A track offered sendonly for the first time is received, and everyone else in the session is sent it at once. */
  lemma PublishingReachesEveryone(s: Session, c: EndpointId, x: Mid, kind: Kind, track: Track)
    requires c in s.endpoints
    ensures var s' := Published(s, c, x, Sendonly, kind, track);
            Source(s', c, x) && EveryoneMirrors(s', c, x)
  {
    var s' := Published(s, c, x, Sendonly, kind, track);
    PublishedDirection(s, c, x, Sendonly, kind, track, c, x);
    forall b | b in s'.endpoints && b != c
      ensures Mirror(s', b, c, x)
    {
      PublishedDirection(s, c, x, Sendonly, kind, track, b, MirrorKey(c, x));
    }
  }

  /**
   Another endpoint's track goes on being received, unless its own mid is the mirror key of the track
   published: then it is turned around, except by a track that the client only wants to receive.
   */
  lemma SourceSurvivesIff(s: Session, c: EndpointId, x: Mid, d: Direction, kind: Kind, track: Track, a: EndpointId,
                          m: Mid)
    requires c in s.endpoints && a != c && Source(s, a, m)
    ensures Source(Published(s, c, x, d, kind, track), a, m) <==> m != MirrorKey(c, x) || d == Recvonly
  {
    PublishedDirection(s, c, x, d, kind, track, a, m);
  }

  // ------------------------------------------------------------------ a section of an offer

  /** The section is taken up: it is for audio or video, names a mid, and can be read where that mid is new. */
  predicate Applied(e: Endpoint, section: RemoteMedia) {
    && Negotiable(section.media)
    && MidOf(section.media).Some?
    && MidOf(section.media).value != ""
    && (MidOf(section.media).value in e.transceivers || section.track.Ok?)
  }

  /**
   After a section that offers `m` sendonly was taken up, the track is received and everyone is sent it
   exactly if the endpoint did not hold the mid yet or both were so before: a mid that is held already
   is skipped, whatever its direction was.
   */
  lemma OfferedSectionReachesIff(s: Session, a: EndpointId, section: RemoteMedia)
    requires a in s.endpoints && Applied(s.endpoints[a], section) && PeerDirection(section.media) == Sendonly
    ensures var m, s' := MidOf(section.media).value, AfterOfferedSection(s, a, section).0;
      && AfterOfferedSection(s, a, section).1.Ok?
      && (Source(s', a, m) && EveryoneMirrors(s', a, m)
          <==> m !in s.endpoints[a].transceivers || (Source(s, a, m) && EveryoneMirrors(s, a, m)))
      && (m in s.endpoints[a].transceivers ==> s' == s)
  {
    if Creates(s.endpoints[a], section) {
      PublishingReachesEveryone(s, a, MidOf(section.media).value, KindOf(section.media.name), section.track.value);
    }
  }

  // ------------------------------------------------------------------ the sections of an offer

  /** The mids that these sections make the endpoint hold, with the direction each is offered in. */
  ghost function FirstOffers(s: Session, c: EndpointId, sections: seq<RemoteMedia>): map<Mid, Direction>
    requires c in s.endpoints
    decreases |sections|
  {
    if sections == [] then map[]
    else
      SectionKeepsKeys(s, c, false, sections[0]);
      var (s1, r) := AfterOfferedSection(s, c, sections[0]);
      var later := if r.Ok? then FirstOffers(s1, c, sections[1..]) else map[];
      if Creates(s.endpoints[c], sections[0])
      then later[MidOf(sections[0].media).value := PeerDirection(sections[0].media)]
      else later
  }

  lemma {:induction false} FirstOffersAreNew(s: Session, c: EndpointId, sections: seq<RemoteMedia>)
    requires c in s.endpoints
    ensures forall x :: x in FirstOffers(s, c, sections) ==> x !in s.endpoints[c].transceivers
    decreases |sections|
  {
    if sections != [] {
      SectionKeepsKeys(s, c, false, sections[0]);
      var (s1, r) := AfterOfferedSection(s, c, sections[0]);
      if r.Ok? {
        FirstOffersAreNew(s1, c, sections[1..]);
      }
    }
  }

  lemma FirstOffersStep(s: Session, c: EndpointId, sections: seq<RemoteMedia>)
    requires c in s.endpoints && sections != [] && AfterOfferedSection(s, c, sections[0]).1.Ok?
    ensures c in AfterOfferedSection(s, c, sections[0]).0.endpoints
    ensures var later := FirstOffers(AfterOfferedSection(s, c, sections[0]).0, c, sections[1..]);
      if Creates(s.endpoints[c], sections[0]) then
        && MidOf(sections[0].media).value !in later
        && FirstOffers(s, c, sections) == later[MidOf(sections[0].media).value := PeerDirection(sections[0].media)]
      else FirstOffers(s, c, sections) == later
  {
    SectionKeepsKeys(s, c, false, sections[0]);
    FirstOffersAreNew(AfterOfferedSection(s, c, sections[0]).0, c, sections[1..]);
  }

  /** The direction that a mid first offered by `c` gives to the transceiver under key `m`. */
  ghost function TurnedTo(offers: map<Mid, Direction>, c: EndpointId, m: Mid): Option<Direction> {
    if x :| x in offers && MirrorKey(c, x) == m then Some(offers[x]) else None
  }

  lemma TurnedToOf(offers: map<Mid, Direction>, c: EndpointId, x: Mid)
    requires x in offers
    ensures TurnedTo(offers, c, MirrorKey(c, x)) == Some(offers[x])
  {
    var y :| y in offers && MirrorKey(c, y) == MirrorKey(c, x);
    forall z | z in offers && MirrorKey(c, z) == MirrorKey(c, x)
      ensures z == x
    {
      MirrorKeyInjective(c, z, c, x);
    }
  }

  /** An offer turns the transceivers that others hold under its mirror keys, and no others. */
  lemma {:induction false} OfferTurnsHeld(s: Session, c: EndpointId, sections: seq<RemoteMedia>, a: EndpointId, m: Mid)
    requires c in s.endpoints && a != c && DirectionAt(s, a, m).Some?
    ensures var turned := TurnedTo(FirstOffers(s, c, sections), c, m);
      DirectionAt(AfterSections(s, c, false, sections).0, a, m) == if turned.Some? then turned else DirectionAt(s, a, m)
    decreases |sections|
  {
    if sections != [] {
      SectionKeepsKeys(s, c, false, sections[0]);
      var (s1, r) := AfterOfferedSection(s, c, sections[0]);
      var x, d := MidOf(sections[0].media), PeerDirection(sections[0].media);
      if Creates(s.endpoints[c], sections[0]) {
        PublishedDirection(s, c, x.value, d, KindOf(sections[0].media.name), sections[0].track.value, a, m);
      }
      if r.Ok? {
        OfferTurnsHeld(s1, c, sections[1..], a, m);
        FirstOffersStep(s, c, sections);
        if Creates(s.endpoints[c], sections[0]) {
          TurnedToStep(FirstOffers(s1, c, sections[1..]), c, x.value, d, m);
        }
      }
    }
  }

  lemma TurnedToStep(offers: map<Mid, Direction>, c: EndpointId, x: Mid, d: Direction, m: Mid)
    requires x !in offers
    ensures TurnedTo(offers[x := d], c, m) == if m == MirrorKey(c, x) then Some(d) else TurnedTo(offers, c, m)
    ensures m == MirrorKey(c, x) ==> TurnedTo(offers, c, m).None?
  {
    if m == MirrorKey(c, x) {
      TurnedToOf(offers[x := d], c, x);
      forall y | y in offers
        ensures MirrorKey(c, y) != m
      {
        if MirrorKey(c, y) == m {
          MirrorKeyInjective(c, y, c, x);
        }
      }
    } else if y :| y in offers && MirrorKey(c, y) == m {
      TurnedToOf(offers, c, y);
      TurnedToOf(offers[x := d], c, y);
    }
  }

  /**
   Another endpoint's track survives an offer unless its mid is the mirror key of a mid first offered otherwise than
   recvonly.
   */
  lemma SourceSurvivesOfferIff(s: Session, c: EndpointId, sections: seq<RemoteMedia>, a: EndpointId, m: Mid)
    requires c in s.endpoints && a != c && Source(s, a, m)
    ensures Source(AfterSections(s, c, false, sections).0, a, m)
       <==> forall x :: x in FirstOffers(s, c, sections) && MirrorKey(c, x) == m ==>
           FirstOffers(s, c, sections)[x] == Recvonly
  {
    var offers := FirstOffers(s, c, sections);
    OfferTurnsHeld(s, c, sections, a, m);
    forall x | x in offers && MirrorKey(c, x) == m
      ensures TurnedTo(offers, c, m) == Some(offers[x])
    {
      TurnedToOf(offers, c, x);
    }
  }

  /** An offer takes away none of the offering endpoint's own transceivers. */
  lemma {:induction false} OfferKeepsOwn(s: Session, c: EndpointId, sections: seq<RemoteMedia>, m: Mid)
    requires c in s.endpoints && DirectionAt(s, c, m).Some?
    ensures DirectionAt(AfterSections(s, c, false, sections).0, c, m) == DirectionAt(s, c, m)
    decreases |sections|
  {
    if sections != [] {
      SectionKeepsKeys(s, c, false, sections[0]);
      var (s1, r) := AfterOfferedSection(s, c, sections[0]);
      if Creates(s.endpoints[c], sections[0]) {
        var media := sections[0].media;
        PublishedDirection(s, c, MidOf(media).value, PeerDirection(media), KindOf(media.name),
            sections[0].track.value, c, m);
      }
      if r.Ok? {
        OfferKeepsOwn(s1, c, sections[1..], m);
      }
    }
  }

  // ------------------------------------------------------------------ answers and the server's own descriptions

  lemma SameTracksTransitive(s: Session, t: Session, u: Session)
    requires SameTracks(s, t) && SameTracks(t, u)
    ensures SameTracks(s, u)
  {
  }

  lemma {:induction false} AnsweredSectionsKeepTracks(s: Session, a: EndpointId, sections: seq<RemoteMedia>)
    requires a in s.endpoints
    ensures SameTracks(s, AfterSections(s, a, true, sections).0)
    decreases |sections|
  {
    if sections != [] {
      SectionKeepsKeys(s, a, true, sections[0]);
      var (s1, r) := AfterAnsweredSection(s, a, sections[0]);
      if r.Ok? {
        AnsweredSectionsKeepTracks(s1, a, sections[1..]);
        SameTracksTransitive(s, s1, AfterSections(s1, a, true, sections[1..]).0);
      }
    }
  }

  lemma {:induction false} LocalMediaKeepsDirections(e: Endpoint, media: seq<Media>, m: Mid)
    ensures var e' := AfterLocalMedia(e, media).0;
      && (m in e'.transceivers <==> m in e.transceivers)
      && (m in e.transceivers ==> e'.transceivers[m].direction == e.transceivers[m].direction)
    decreases |media|
  {
    if media != [] {
      if !Negotiable(media[0]) || MidOf(media[0]).None? {
        LocalMediaKeepsDirections(e, media[1..], m);
      } else if MidOf(media[0]).value != "" {
        LocalMediaKeepsDirections(WithCurrentDirection(e, MidOf(media[0]).value, PeerDirection(media[0])), media[1..],
            m);
      }
    }
  }

  lemma LocalKeepsTracks(s: Session, a: EndpointId, d: LocalDescription)
    ensures SameTracks(s, AfterLocal(s, a, d).0)
  {
    var s' := AfterLocal(s, a, d).0;
    forall b: EndpointId, m: Mid
      ensures DirectionAt(s', b, m) == DirectionAt(s, b, m)
    {
      if b == a && a in s.endpoints {
        LocalMediaKeepsDirections(s.endpoints[a], d.sdp.media, m);
      }
    }
  }

  // ------------------------------------------------------------------ a data channel opens

  /** The track with this mirror key is one of these. */
  ghost predicate KeyOf(tracks: set<(EndpointId, Mid)>, m: Mid) {
    exists t: (EndpointId, Mid) :: t in tracks && MirrorKey(t.0, t.1) == m
  }

  ghost predicate Listed(tracks: seq<(EndpointId, Mid)>, m: Mid) {
    exists k :: 0 <= k < |tracks| && MirrorKey(tracks[k].0, tracks[k].1) == m
  }

  lemma ListedSplit(tracks: seq<(EndpointId, Mid)>, m: Mid)
    requires tracks != []
    ensures var n := |tracks| - 1;
      Listed(tracks, m) <==> Listed(tracks[..n], m) || MirrorKey(tracks[n].0, tracks[n].1) == m
  {
    var n := |tracks| - 1;
    if k :| 0 <= k < n && MirrorKey(tracks[k].0, tracks[k].1) == m {
      assert tracks[..n][k] == tracks[k];
    }
  }

  /** Inserting mirrors sets exactly the mirror keys of the tracks to sendonly. */
  lemma {:induction false} MirrorsInserted(e: Endpoint, s: Session, tracks: seq<(EndpointId, Mid)>, m: Mid)
    requires TracksOf(s, tracks)
    ensures var e' := WithMirrors(e, s, tracks);
      if Listed(tracks, m)
      then m in e'.transceivers && e'.transceivers[m].direction == Sendonly
      else && (m in e'.transceivers <==> m in e.transceivers)
           && (m in e.transceivers ==> e'.transceivers[m] == e.transceivers[m])
  {
    if tracks != [] {
      MirrorsInserted(e, s, tracks[..|tracks| - 1], m);
      ListedSplit(tracks, m);
    }
  }

  function WithOpened(s: Session, b: EndpointId, ft: FourTuple, handle: nat, stream: nat,
                      tracks: seq<(EndpointId, Mid)>): Session
    requires b in s.endpoints && ft in s.endpoints[b].transports && TracksOf(s, tracks)
  {
    s.(endpoints := s.endpoints[b := Opened(s, b, ft, handle, stream, tracks)])
  }

  lemma TracksArePresent(s: Session, b: EndpointId, tracks: seq<(EndpointId, Mid)>)
    requires Enumerates(tracks, TracksFor(s, b))
    ensures TracksOf(s, tracks)
  {
    assert forall k :: 0 <= k < |tracks| ==> tracks[k] in TracksFor(s, b);
  }

  lemma ListedIffKey(tracks: seq<(EndpointId, Mid)>, all: set<(EndpointId, Mid)>, m: Mid)
    requires Enumerates(tracks, all)
    ensures Listed(tracks, m) <==> KeyOf(all, m)
  {
    if Listed(tracks, m) {
      var k :| 0 <= k < |tracks| && MirrorKey(tracks[k].0, tracks[k].1) == m;
      assert tracks[k] in all;
    }
    if KeyOf(all, m) {
      var p: (EndpointId, Mid) :| p in all && MirrorKey(p.0, p.1) == m;
      var k :| 0 <= k < |tracks| && tracks[k] == p;
    }
  }

  /** What an opening channel does to every transceiver of every endpoint. */
  lemma OpenedDirection(s: Session, b: EndpointId, ft: FourTuple, handle: nat, stream: nat,
                        tracks: seq<(EndpointId, Mid)>, a: EndpointId, m: Mid)
    requires b in s.endpoints && ft in s.endpoints[b].transports && TracksOf(s, tracks)
    requires Enumerates(tracks, TracksFor(s, b))
    ensures DirectionAt(WithOpened(s, b, ft, handle, stream, tracks), a, m)
         == if a == b && KeyOf(TracksFor(s, b), m) then Some(Sendonly) else DirectionAt(s, a, m)
  {
    if a == b {
      var e := s.endpoints[b];
      var t := e.transports[ft].(channel := Some((handle, stream)));
      MirrorsInserted(e.(transports := e.transports[ft := t], renegotiate := tracks != []), s, tracks, m);
      ListedIffKey(tracks, TracksFor(s, b), m);
    }
  }

  lemma TracksForIff(s: Session, b: EndpointId, a: EndpointId, m: Mid)
    ensures (a, m) in TracksFor(s, b) <==> a != b && Source(s, a, m)
  {
  }

  /** A mirror key is that of another endpoint's source. */
  lemma KeyOfIff(s: Session, b: EndpointId, a: EndpointId, m: Mid)
    ensures KeyOf(TracksFor(s, b), MirrorKey(a, m)) <==> a != b && Source(s, a, m)
  {
    if a != b && Source(s, a, m) {
      assert (a, m) in TracksFor(s, b);
    }
    if KeyOf(TracksFor(s, b), MirrorKey(a, m)) {
      var t: (EndpointId, Mid) :| t in TracksFor(s, b) && MirrorKey(t.0, t.1) == MirrorKey(a, m);
      MirrorKeyInjective(t.0, t.1, a, m);
    }
  }

  /** An endpoint whose data channel opens is sent every track that the server receives from the others. */
  lemma OpeningReaches(s: Session, b: EndpointId, ft: FourTuple, handle: nat, stream: nat,
                       tracks: seq<(EndpointId, Mid)>, a: EndpointId, m: Mid)
    requires b in s.endpoints && ft in s.endpoints[b].transports && TracksOf(s, tracks)
    requires Enumerates(tracks, TracksFor(s, b))
    ensures a != b ==>
              (Mirror(WithOpened(s, b, ft, handle, stream, tracks), b, a, m) <==> Source(s, a, m) || Mirror(s, b, a, m))
  {
    OpenedDirection(s, b, ft, handle, stream, tracks, b, MirrorKey(a, m));
    KeyOfIff(s, b, a, m);
  }

  /** A track of the opening endpoint itself survives unless its mid is the mirror key of another endpoint's track. */
  lemma SourceSurvivesOpeningIff(s: Session, b: EndpointId, ft: FourTuple, handle: nat, stream: nat,
                                 tracks: seq<(EndpointId, Mid)>, m: Mid)
    requires b in s.endpoints && ft in s.endpoints[b].transports && TracksOf(s, tracks)
    requires Enumerates(tracks, TracksFor(s, b)) && Source(s, b, m)
    ensures Source(WithOpened(s, b, ft, handle, stream, tracks), b, m) <==> !KeyOf(TracksFor(s, b), m)
  {
    OpenedDirection(s, b, ft, handle, stream, tracks, b, m);
  }
}
