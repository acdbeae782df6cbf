/** What the written offers and answers promise (section 6.1 of RFC 3264, section 5.2.2 of RFC 8829). */
module OfferAnswer {
  import opened Types
  import opened Directions
  import opened Sdp
  import opened Endpoints
  import opened MirrorKeys
  import opened SdpGeneration

  // ------------------------------------------------------------------ the sections asked for

  predicate Eligible(m: Media) { MidOf(m).Some? && (m.name == APPLICATION || Negotiable(m)) }

  /** The sections of a remote description that get an answer, in order. */
  function EligibleMedia(remote: seq<RemoteMedia>): (all: seq<Media>)
    ensures forall k :: 0 <= k < |all| ==> Eligible(all[k])
  {
    if remote == [] then []
    else (if Eligible(remote[0].media) then [remote[0].media] else []) + EligibleMedia(remote[1..])
  }

  function SectionFor(m: Media, offering: bool): MediaSection
    requires Eligible(m)
  {
    if m.name == APPLICATION then DataSection(MidOf(m).value) else MatchedSection(m, MidOf(m).value, offering)
  }

  function SectionsFor(media: seq<Media>, offering: bool): seq<MediaSection>
    requires forall k :: 0 <= k < |media| ==> Eligible(media[k])
  {
    seq(|media|, k requires 0 <= k < |media| => SectionFor(media[k], offering))
  }

  /** A section does no harm if its mid is not empty and, where it is negotiable, known. */
  predicate Admissible(m: Media, keys: set<Mid>) {
    MidOf(m).Some? ==> MidOf(m).value != "" && (Negotiable(m) ==> MidOf(m).value in keys)
  }

  function Asked(m: Media, offering: bool): seq<MediaSection> {
    if Eligible(m) then [SectionFor(m, offering)] else []
  }

  lemma MatchedStep(sections: seq<MediaSection>, keys: set<Mid>, remote: seq<RemoteMedia>, offering: bool)
    requires remote != [] && Admissible(remote[0].media, keys)
    ensures MatchedFrom(sections, keys, remote, offering)
         == MatchedFrom(sections + Asked(remote[0].media, offering), keys, remote[1..], offering)
  {
    assert sections + [] == sections;
  }

  lemma SectionsForConcat(media: seq<Media>, more: seq<Media>, offering: bool)
    requires forall k :: 0 <= k < |media| ==> Eligible(media[k])
    requires forall k :: 0 <= k < |more| ==> Eligible(more[k])
    ensures forall k :: 0 <= k < |media + more| ==> Eligible((media + more)[k])
    ensures SectionsFor(media + more, offering) == SectionsFor(media, offering) + SectionsFor(more, offering)
  {
  }

  lemma AskedFirst(remote: seq<RemoteMedia>, offering: bool)
    requires remote != []
    ensures SectionsFor(EligibleMedia(remote), offering)
         == Asked(remote[0].media, offering) + SectionsFor(EligibleMedia(remote[1..]), offering)
  {
    var m, rest := remote[0].media, EligibleMedia(remote[1..]);
    if Eligible(m) {
      SectionsForConcat([m], rest, offering);
      assert SectionsFor([m], offering) == [SectionFor(m, offering)];
      assert EligibleMedia(remote) == [m] + rest;
    } else {
      assert EligibleMedia(remote) == rest;
      assert [] + SectionsFor(rest, offering) == SectionsFor(rest, offering);
    }
  }

  lemma AppendedAsked(sections: seq<MediaSection>, remote: seq<RemoteMedia>, offering: bool)
    requires remote != []
    ensures sections + SectionsFor(EligibleMedia(remote), offering)
         == sections + Asked(remote[0].media, offering) + SectionsFor(EligibleMedia(remote[1..]), offering)
  {
    AskedFirst(remote, offering);
  }

  ghost predicate AllAdmissible(remote: seq<RemoteMedia>, keys: set<Mid>) {
    forall k :: 0 <= k < |remote| ==> Admissible(remote[k].media, keys)
  }

  lemma AllAdmissibleFirst(remote: seq<RemoteMedia>, keys: set<Mid>)
    requires remote != []
    ensures AllAdmissible(remote, keys) <==> Admissible(remote[0].media, keys) && AllAdmissible(remote[1..], keys)
  {
    assert forall k :: 0 <= k < |remote[1..]| ==> remote[1..][k] == remote[k + 1];
    if AllAdmissible(remote[1..], keys) {
      forall k | 1 <= k < |remote|
        ensures Admissible(remote[k].media, keys)
      {
        assert remote[1..][k - 1] == remote[k];
      }
    }
  }

  lemma {:induction false} AdmissibleIsMatched(sections: seq<MediaSection>, keys: set<Mid>, remote: seq<RemoteMedia>,
                                               offering: bool)
    requires AllAdmissible(remote, keys)
    ensures MatchedFrom(sections, keys, remote, offering)
         == Ok(sections + SectionsFor(EligibleMedia(remote), offering))
    decreases |remote|
  {
    if remote == [] {
      assert SectionsFor(EligibleMedia(remote), offering) == [];
      assert sections + [] == sections;
    } else {
      var more, rest := Asked(remote[0].media, offering), remote[1..];
      assert Admissible(remote[0].media, keys) && AllAdmissible(rest, keys) by {
        AllAdmissibleFirst(remote, keys);
      }
      MatchedStep(sections, keys, remote, offering);
      AdmissibleIsMatched(sections + more, keys, rest, offering);
      AppendedAsked(sections, remote, offering);
    }
  }

  lemma InadmissibleFails(sections: seq<MediaSection>, keys: set<Mid>, remote: seq<RemoteMedia>, offering: bool)
    requires remote != [] && !Admissible(remote[0].media, keys)
    ensures MatchedFrom(sections, keys, remote, offering).Err?
  {
  }

  lemma {:induction false} MatchedIsAdmissible(sections: seq<MediaSection>, keys: set<Mid>, remote: seq<RemoteMedia>,
                                               offering: bool)
    requires !AllAdmissible(remote, keys)
    ensures MatchedFrom(sections, keys, remote, offering).Err?
    decreases |remote|
  {
    AllAdmissibleFirst(remote, keys);
    if Admissible(remote[0].media, keys) {
      MatchedStep(sections, keys, remote, offering);
      MatchedIsAdmissible(sections + Asked(remote[0].media, offering), keys, remote[1..], offering);
    } else {
      InadmissibleFails(sections, keys, remote, offering);
    }
  }

  /** A description is matched unless a section has an empty mid or a negotiable one an unknown mid. */
  lemma MatchedIsEligible(sections: seq<MediaSection>, keys: set<Mid>, remote: seq<RemoteMedia>, offering: bool)
    ensures MatchedFrom(sections, keys, remote, offering).Ok? <==> AllAdmissible(remote, keys)
    ensures AllAdmissible(remote, keys) ==>
              MatchedFrom(sections, keys, remote, offering)
              == Ok(sections + SectionsFor(EligibleMedia(remote), offering))
  {
    if AllAdmissible(remote, keys) {
      AdmissibleIsMatched(sections, keys, remote, offering);
    } else {
      MatchedIsAdmissible(sections, keys, remote, offering);
    }
  }

  // ------------------------------------------------------------------ answers

  /** Directions and kinds are always known for the transceivers of an endpoint. */
  ghost predicate Specified(transceivers: Transceivers) {
    forall mid :: mid in transceivers ==>
      transceivers[mid].direction != Unspecified && transceivers[mid].kind != UnknownKind
  }

  /** Section for section, the answer takes up the offer's mid and answers it with a legal direction. */
  ghost predicate Answers(offer: seq<RemoteMedia>, answer: SessionDescription, transceivers: Transceivers) {
    var offered := EligibleMedia(offer);
    && |answer.media| == |offered|
    && forall k :: 0 <= k < |offered| ==> AnswersSection(offered[k], answer.media[k], transceivers)
  }

  ghost predicate AnswersSection(offered: Media, answered: Media, transceivers: Transceivers) {
    && MidOf(answered) == MidOf(offered)
    && (answered.name == APPLICATION <==> offered.name == APPLICATION)
    && (offered.name != APPLICATION ==>
          && MidOf(offered).Some? && MidOf(offered).value in transceivers
          && var t := transceivers[MidOf(offered).value];
          && answered.name == KindName(t.kind)
          && (answered.name == offered.name <==> t.kind == KindOf(offered.name))
          && PeerDirection(answered) == WrittenDirection(PeerDirection(offered), t.direction)
          && LegalAnswer(PeerDirection(offered), PeerDirection(answered)))
  }

  lemma WrittenIsLegal(offered: Direction, transceiver: Direction)
    requires offered != Unspecified && transceiver != Unspecified
    ensures LegalAnswer(offered, WrittenDirection(offered, transceiver))
  {
  }

  lemma AskedSections(keys: set<Mid>, remote: seq<RemoteMedia>, offering: bool)
    requires MatchedFrom([], keys, remote, offering).Ok?
    ensures MatchedFrom([], keys, remote, offering).value == SectionsFor(EligibleMedia(remote), offering)
  {
    MatchedIsEligible([], keys, remote, offering);
    assert [] + SectionsFor(EligibleMedia(remote), offering) == SectionsFor(EligibleMedia(remote), offering);
  }

  /** Every answer that is written answers the offer. */
  lemma AnswerIsCorrect(transceivers: Transceivers, offer: seq<RemoteMedia>, ctx: SdpContext,
                        sections: seq<MediaSection>, answer: SessionDescription)
    requires Specified(transceivers)
    requires MatchedFrom([], transceivers.Keys, offer, false) == Ok(sections)
    requires Populated(sections, transceivers, ctx) == Ok(answer)
    ensures Answers(offer, answer, transceivers)
  {
    var offered := EligibleMedia(offer);
    AskedSections(transceivers.Keys, offer, false);
    PopulatedSections([], sections, transceivers, ctx);
    forall k | 0 <= k < |offered|
      ensures AnswersSection(offered[k], answer.media[k], transceivers)
    {
      assert sections[k] == SectionFor(offered[k], false);
      AnswerSectionIsCorrect(offered[k], k == 0, transceivers, ctx);
    }
  }

  lemma AnswerSectionIsCorrect(offered: Media, first: bool, transceivers: Transceivers, ctx: SdpContext)
    requires Specified(transceivers) && Eligible(offered)
    requires SectionMedia(SectionFor(offered, false), first, transceivers, ctx).Ok?
    ensures AnswersSection(offered, SectionMedia(SectionFor(offered, false), first, transceivers, ctx).value,
            transceivers)
  {
    var section := SectionFor(offered, false);
    WrittenSection(section, first, transceivers, ctx);
    if offered.name != APPLICATION {
      WrittenIsLegal(PeerDirection(offered), transceivers[section.mid].direction);
    }
  }

  // ------------------------------------------------------------------ every section has its transceiver

  lemma {:induction false} UnmatchedEntry(mids: seq<Mid>, matched: set<Mid>, s: MediaSection)
    requires s in UnmatchedSections(mids, matched)
    ensures !s.data && s.mid in mids && s.mid !in matched
  {
    var n := |mids| - 1;
    if s in UnmatchedSections(mids[..n], matched) {
      UnmatchedEntry(mids[..n], matched, s);
    }
  }

  /** Offer or answer, a section that is not for data names a transceiver. */
  lemma SectionsHaveTransceivers(mids: seq<Mid>, keys: set<Mid>, remote: seq<RemoteMedia>, offering: bool,
                                 s: MediaSection)
    requires forall mid :: mid in mids ==> mid in keys
    requires Sections(mids, keys, remote, offering).Ok? && s in Sections(mids, keys, remote, offering).value
    ensures !s.data ==> s.mid in keys
  {
    MatchedIsEligible([], keys, remote, offering);
    AskedSections(keys, remote, offering);
    var matched := SectionsFor(EligibleMedia(remote), offering);
    if s in matched {
      var k :| 0 <= k < |matched| && matched[k] == s;
      EligibleIsAdmissible(remote, keys, k);
    } else if !s.data {
      UnmatchedEntry(mids, MatchedMids(matched), s);
    }
  }

  lemma {:induction false} EligibleIsAdmissible(remote: seq<RemoteMedia>, keys: set<Mid>, k: nat)
    requires forall j :: 0 <= j < |remote| ==> Admissible(remote[j].media, keys)
    requires k < |EligibleMedia(remote)|
    ensures Admissible(EligibleMedia(remote)[k], keys)
  {
    var first := if Eligible(remote[0].media) then 1 else 0;
    if k >= first {
      EligibleIsAdmissible(remote[1..], keys, k - first);
    }
  }

  /** A description never fails for want of a transceiver. */
  lemma NeverZeroTransceivers(mids: seq<Mid>, transceivers: Transceivers, remote: seq<RemoteMedia>, offering: bool,
                              ctx: SdpContext)
    requires forall mid :: mid in mids ==> mid in transceivers
    requires Sections(mids, transceivers.Keys, remote, offering).Ok?
    ensures Populated(Sections(mids, transceivers.Keys, remote, offering).value, transceivers, ctx)
         != Err("ErrSDPZeroTransceivers")
  {
    var sections := Sections(mids, transceivers.Keys, remote, offering).value;
    PopulatedSections([], sections, transceivers, ctx);
    forall k | 0 <= k < |sections|
      ensures SectionMedia(sections[k], k == 0, transceivers, ctx) != Err("ErrSDPZeroTransceivers")
    {
      SectionsHaveTransceivers(mids, transceivers.Keys, remote, offering, sections[k]);
    }
  }

  // ------------------------------------------------------------------ offers

  /** A remote description whose sections could all be answered without any transceiver. */
  ghost predicate Bare(remote: seq<RemoteMedia>) {
    forall k :: 0 <= k < |remote| ==> Admissible(remote[k].media, {})
  }

  ghost predicate HasApplication(remote: seq<RemoteMedia>) {
    exists k :: 0 <= k < |remote| && remote[k].media.name == APPLICATION && MidOf(remote[k].media).Some?
  }

  lemma {:induction false} BareIsData(remote: seq<RemoteMedia>)
    requires Bare(remote)
    ensures forall k :: 0 <= k < |EligibleMedia(remote)| ==> EligibleMedia(remote)[k].name == APPLICATION
    ensures EligibleMedia(remote) != [] <==> HasApplication(remote)
  {
    if remote != [] {
      var first, rest := remote[0].media, remote[1..];
      assert forall k :: 0 <= k < |rest| ==> rest[k] == remote[k + 1];
      BareIsData(rest);
      assert Admissible(first, {});
      assert Eligible(first) <==> first.name == APPLICATION && MidOf(first).Some?;
      HasApplicationFirst(remote);
    }
  }

  lemma HasApplicationFirst(remote: seq<RemoteMedia>)
    requires remote != []
    ensures HasApplication(remote)
       <==> (remote[0].media.name == APPLICATION && MidOf(remote[0].media).Some?) || HasApplication(remote[1..])
  {
    if HasApplication(remote[1..]) {
      var k :| 0 <= k < |remote[1..]| && remote[1..][k].media.name == APPLICATION && MidOf(remote[1..][k].media).Some?;
      assert remote[k + 1] == remote[1..][k];
    }
    if k :| 0 < k < |remote| && remote[k].media.name == APPLICATION && MidOf(remote[k].media).Some? {
      assert remote[1..][k - 1] == remote[k];
    }
  }

  lemma {:induction false} AllUnmatched(mids: seq<Mid>)
    ensures UnmatchedSections(mids, {}) == LocalSections(mids)
  {
    if mids != [] {
      AllUnmatched(mids[..|mids| - 1]);
    }
  }

  function LocalSections(mids: seq<Mid>): seq<MediaSection> {
    seq(|mids|, k requires 0 <= k < |mids| => MediaSection(mids[k], false, [], None))
  }

  /** For a bare remote description an offer is its data sections, then one section per local mid. */
  function OfferSections(remote: seq<RemoteMedia>, mids: seq<Mid>): seq<MediaSection> {
    var all := SectionsFor(EligibleMedia(remote), true) + LocalSections(mids);
    if EligibleMedia(remote) == [] then all + [DataSection(Decimal(|all|))] else all
  }

  lemma OfferIsDataThenMids(remote: seq<RemoteMedia>, mids: seq<Mid>, keys: set<Mid>)
    requires Bare(remote)
    ensures Sections(mids, keys, remote, true) == Ok(OfferSections(remote, mids))
  {
    BareIsData(remote);
    MatchedIsEligible([], keys, remote, true);
    assert forall k :: 0 <= k < |remote| ==> Admissible(remote[k].media, keys);
    AskedSections(keys, remote, true);
    var data := SectionsFor(EligibleMedia(remote), true);
    assert MatchedMids(data) == {};
    AllUnmatched(mids);
    if EligibleMedia(remote) != [] {
      assert data[0].data;
    }
  }

  /**
   When mids have been appended since an earlier offer, the sections of the earlier offer begin the
   later one, in the same places, if and only if the remote description has an application section.
   */
  lemma OfferIsStable(remote: seq<RemoteMedia>, mids: seq<Mid>, later: seq<Mid>)
    requires Bare(remote) && mids <= later
    ensures OfferSections(remote, mids) <= OfferSections(remote, later)
       <==> HasApplication(remote) || mids == later
  {
    BareIsData(remote);
    if !HasApplication(remote) && mids != later {
      assert OfferSections(remote, mids)[|mids|].data;
      assert !OfferSections(remote, later)[|mids|].data;
    }
  }

  /** Every transceiver that `mids` names is offered. */
  lemma OfferCovers(remote: seq<RemoteMedia>, mids: seq<Mid>, mid: Mid)
    requires mid in mids
    ensures MediaSection(mid, false, [], None) in OfferSections(remote, mids)
  {
    var k :| 0 <= k < |mids| && mids[k] == mid;
    var n := |EligibleMedia(remote)|;
    assert OfferSections(remote, mids)[n + k] == MediaSection(mid, false, [], None);
  }

  function WrittenMids(sdp: SessionDescription): seq<Option<Mid>> {
    seq(|sdp.media|, k requires 0 <= k < |sdp.media| => MidOf(sdp.media[k]))
  }

  /** The mids written into a description are those of its sections. */
  lemma WrittenMidsAreSections(sections: seq<MediaSection>, transceivers: Transceivers, ctx: SdpContext)
    requires Populated(sections, transceivers, ctx).Ok?
    ensures WrittenMids(Populated(sections, transceivers, ctx).value)
         == seq(|sections|, k requires 0 <= k < |sections| => Some(sections[k].mid))
  {
    PopulatedSections([], sections, transceivers, ctx);
    forall k | 0 <= k < |sections|
      ensures MidOf(Populated(sections, transceivers, ctx).value.media[k]) == Some(sections[k].mid)
    {
      WrittenSection(sections[k], k == 0, transceivers, ctx);
    }
  }

  /** The mid of each written section, and whether it is for data. */
  function WrittenSlots(sdp: SessionDescription): seq<(Option<Mid>, bool)> {
    seq(|sdp.media|, k requires 0 <= k < |sdp.media| => (MidOf(sdp.media[k]), sdp.media[k].name == APPLICATION))
  }

  function SlotsOf(sections: seq<MediaSection>): seq<(Option<Mid>, bool)> {
    seq(|sections|, k requires 0 <= k < |sections| => (Some(sections[k].mid), sections[k].data))
  }

  lemma WrittenSlotsAreSections(sections: seq<MediaSection>, transceivers: Transceivers, ctx: SdpContext)
    requires Populated(sections, transceivers, ctx).Ok?
    ensures WrittenSlots(Populated(sections, transceivers, ctx).value) == SlotsOf(sections)
  {
    PopulatedSections([], sections, transceivers, ctx);
    var media := Populated(sections, transceivers, ctx).value.media;
    forall k | 0 <= k < |sections|
      ensures (MidOf(media[k]), media[k].name == APPLICATION) == (Some(sections[k].mid), sections[k].data)
    {
      WrittenSection(sections[k], k == 0, transceivers, ctx);
    }
  }

  /** The same of what a reader sees of the sections: their mids, and which of them are for data. */
  lemma SlotsAreStable(remote: seq<RemoteMedia>, mids: seq<Mid>, later: seq<Mid>)
    requires Bare(remote) && mids <= later
    ensures SlotsOf(OfferSections(remote, mids)) <= SlotsOf(OfferSections(remote, later))
       <==> HasApplication(remote) || mids == later
  {
    BareIsData(remote);
    var before, after := OfferSections(remote, mids), OfferSections(remote, later);
    if HasApplication(remote) || mids == later {
      OfferIsStable(remote, mids, later);
      assert forall k :: 0 <= k < |before| ==> before[k] == after[k];
    } else {
      assert SlotsOf(before)[|mids|].1 && !SlotsOf(after)[|mids|].1;
    }
  }

  // ------------------------------------------------------------------ whether an offer can be made, and its mids

  /** The mids of an offer's data sections: those asked for, or else the number of the other sections. */
  function DataMids(remote: seq<RemoteMedia>, mids: seq<Mid>): seq<Mid> {
    var asked := SectionsFor(EligibleMedia(remote), true);
    if asked == [] then [Decimal(|mids|)] else seq(|asked|, k requires 0 <= k < |asked| => asked[k].mid)
  }

  /** The sections asked for are data sections. */
  lemma AskedIsData(remote: seq<RemoteMedia>, mids: seq<Mid>, k: nat)
    requires Bare(remote) && k < |EligibleMedia(remote)|
    ensures SectionsFor(EligibleMedia(remote), true)[k] == DataSection(DataMids(remote, mids)[k])
  {
    BareIsData(remote);
    assert EligibleMedia(remote)[k].name == APPLICATION;
  }

  lemma OfferedMid(remote: seq<RemoteMedia>, mids: seq<Mid>, k: nat)
    requires Bare(remote) && k < |OfferSections(remote, mids)|
    ensures var n, s := |EligibleMedia(remote)|, OfferSections(remote, mids)[k];
      if n == 0 then
        if k < |mids| then s == MediaSection(mids[k], false, [], None) else s == DataSection(DataMids(remote, mids)[0])
      else if k < n then s == DataSection(DataMids(remote, mids)[k])
      else k - n < |mids| && s == MediaSection(mids[k - n], false, [], None)
  {
    var asked, local := SectionsFor(EligibleMedia(remote), true), LocalSections(mids);
    if asked == [] {
      assert asked + local == local;
    } else if k < |asked| {
      AskedIsData(remote, mids, k);
    } else {
      assert (asked + local)[k] == local[k - |asked|];
    }
  }

  /**
   An offer's sections have distinct mids exactly if the data mids and the local mids are distinct and have none in
   common.
   */
  lemma OfferedMidsDistinctIff(remote: seq<RemoteMedia>, mids: seq<Mid>)
    requires Bare(remote)
    ensures DistinctSectionMids(OfferSections(remote, mids))
       <==> Distinct(mids) && Distinct(DataMids(remote, mids)) && forall m :: m in mids ==> m !in DataMids(remote, mids)
  {
    var data, n := DataMids(remote, mids), |EligibleMedia(remote)|;
    var all := data + mids;
    if n == 0 {
      all := mids + data;
    }
    var sections := OfferSections(remote, mids);
    forall k: nat | k < |sections|
      ensures k < |all| && sections[k].mid == all[k]
    {
      OfferedMid(remote, mids, k);
    }
    assert |sections| == |all|;
    if n == 0 {
      DistinctConcat(mids, data);
    } else {
      DistinctConcat(data, mids);
    }
  }

  ghost predicate DistinctSectionMids(sections: seq<MediaSection>) {
    forall j, k :: 0 <= j < k < |sections| ==> sections[j].mid != sections[k].mid
  }

  /** What a section needs to be written. */
  predicate Writable(s: MediaSection, transceivers: Transceivers) {
    if s.data then s.mid !in transceivers
    else
      && s.mid in transceivers
      && (DirectionFor(s, transceivers[s.mid]) == Sendonly ==> transceivers[s.mid].sender.Some?)
  }

  ghost predicate AllWritable(sections: seq<MediaSection>, transceivers: Transceivers) {
    forall k :: 0 <= k < |sections| ==> Writable(sections[k], transceivers)
  }

  lemma PopulatedIffWritable(sections: seq<MediaSection>, transceivers: Transceivers, ctx: SdpContext)
    ensures Populated(sections, transceivers, ctx).Ok? <==> AllWritable(sections, transceivers)
  {
    PopulatedSections([], sections, transceivers, ctx);
    forall k | 0 <= k < |sections|
      ensures SectionMedia(sections[k], k == 0, transceivers, ctx).Ok? <==> Writable(sections[k], transceivers)
    {
    }
  }

  /**
   An offer can be made exactly if no transceiver has the mid of a data section and every transceiver
   that is sent has a sender.
   */
  lemma OfferSucceedsIff(remote: seq<RemoteMedia>, mids: seq<Mid>, transceivers: Transceivers, ctx: SdpContext)
    requires Bare(remote) && forall m :: m in mids <==> m in transceivers
    ensures Populated(OfferSections(remote, mids), transceivers, ctx).Ok?
       <==> && (forall m :: m in DataMids(remote, mids) ==> m !in transceivers)
            && (forall m :: m in transceivers && transceivers[m].direction == Sendonly ==> transceivers[m].sender.Some?)
  {
    var sections := OfferSections(remote, mids);
    PopulatedIffWritable(sections, transceivers, ctx);
    if AllWritable(sections, transceivers) {
      WritableParts(remote, mids, transceivers);
    } else {
      var k: nat :| k < |sections| && !Writable(sections[k], transceivers);
      OfferedMid(remote, mids, k);
    }
  }

  lemma WritableParts(remote: seq<RemoteMedia>, mids: seq<Mid>, transceivers: Transceivers)
    requires Bare(remote) && forall m :: m in transceivers ==> m in mids
    requires AllWritable(OfferSections(remote, mids), transceivers)
    ensures forall m :: m in DataMids(remote, mids) ==> m !in transceivers
    ensures forall m :: m in transceivers && transceivers[m].direction == Sendonly ==> transceivers[m].sender.Some?
  {
    var n, sections, data := |EligibleMedia(remote)|, OfferSections(remote, mids), DataMids(remote, mids);
    forall m | m in data
      ensures m !in transceivers
    {
      var k :| 0 <= k < |data| && data[k] == m;
      var j := if n == 0 then |mids| else k;
      OfferedMid(remote, mids, j);
      assert Writable(sections[j], transceivers);
    }
    forall m | m in transceivers && transceivers[m].direction == Sendonly
      ensures transceivers[m].sender.Some?
    {
      var k :| 0 <= k < |mids| && mids[k] == m;
      OfferedMid(remote, mids, n + k);
      assert Writable(sections[n + k], transceivers);
    }
  }

  /**
   Every section that has a mid has a mid that is not empty and, where it is negotiable, known; a data section has
   none of the transceivers' mids; and no transceiver without a sender would have to be written sendonly.
   */
  ghost predicate Answerable(remote: seq<RemoteMedia>, transceivers: Transceivers) {
    AllAdmissible(remote, transceivers.Keys) && AllWritable(SectionsFor(EligibleMedia(remote), false), transceivers)
  }

  /** An answer can be written exactly to an answerable description. */
  lemma AnswerSucceedsIff(remote: seq<RemoteMedia>, transceivers: Transceivers, ctx: SdpContext)
    ensures var sections := MatchedFrom([], transceivers.Keys, remote, false);
            sections.Ok? && Populated(sections.value, transceivers, ctx).Ok? <==> Answerable(remote, transceivers)
  {
    if AllAdmissible(remote, transceivers.Keys) {
      AdmissibleIsMatched([], transceivers.Keys, remote, false);
      AskedSections(transceivers.Keys, remote, false);
      PopulatedIffWritable(SectionsFor(EligibleMedia(remote), false), transceivers, ctx);
    } else {
      MatchedIsAdmissible([], transceivers.Keys, remote, false);
    }
  }
}
