/** Runs of the server from its start after which a mirror does not carry what its source does. */
module FailingMirrors {
  import opened Types
  import opened Directions
  import opened Endpoints
  import opened MirrorKeys
  import opened SdpGeneration
  import opened ServerStates
  import opened Tracks
  import opened Runs
  import opened Convergence
  import opened Contents
  import opened FailingRuns
  import opened FailingOffers

  lemma HeldIffContent(s: Session, a: EndpointId, m: Mid)
    ensures ContentAt(s, a, m).Some? <==> DirectionAt(s, a, m).Some?
  {
  }

  // ------------------------------------------------------------------ a client offers a mirror key

  /** The second client offers a mid that is the mirror key of a mid that the first one does not hold. */
  lemma OfferedKeyHasNoSource()
    ensures var events := BOTH_IN + [Track1(2, "1-v", Sendonly)];
      && IsRun(INITIAL, CONFIG, BOTH_IN) && IsRun(INITIAL, CONFIG, events)
      && MirrorMatches(SessionOf(After(INITIAL, CONFIG, BOTH_IN), 1), 1, "v", 2)
      && !MirrorMatches(SessionOf(After(INITIAL, CONFIG, events), 1), 1, "v", 2)
  {
    BothIn();
    Keys();
    RunSnoc(INITIAL, CONFIG, BOTH_IN, Track1(2, "1-v", Sendonly));
    var st := Next(TWO_IN, CONFIG, Track1(2, "1-v", Sendonly));
    TwoInTracks(1, "v");
    TwoInTracks(2, "1-v");
    TrackStep(TWO_IN, 2, "1-v", Sendonly, 2, "1-v");
    TrackStep(TWO_IN, 2, "1-v", Sendonly, 1, "v");
    assert "v" != MirrorKey(2, "1-v") by {
      assert |MirrorKey(2, "1-v")| > 1;
    }
    HeldIffContent(TWO_IN.sessions[1], 2, "1-v");
    HeldIffContent(st.sessions[1], 2, "1-v");
    HeldIffContent(st.sessions[1], 1, "v");
  }

  // ------------------------------------------------------------------ an identifier is used again

  lemma HelloAgain(st: State, a: EndpointId, ufrag: string)
    requires 1 in st.sessions && a !in st.sessions[1].endpoints
    ensures Next(st, CONFIG, Hello(a, ufrag)) == WithCandidate(st, CandidateOf(a, ufrag))
  {
    var none: Transceivers := map[];
    assert none.Keys == {};
    assert Populated([], none, SdpContext("passive", Credentials(ufrag, ""), CONFIG)).Ok?;
  }

  const BACK_AGAIN := LEFT + [Hello(1, "x")] + [Check(1, "x")]

  /** What the second client holds when the first one has offered and left. */
  lemma LeftMirror()
    ensures var st := AfterRemoval(Next(TWO_IN, CONFIG, Track1(1, "v", Sendonly)), FT(1));
      && Present(st, 1, 2) && !Present(st, 1, 1) && ContentAt(st.sessions[1], 2, MirrorKey(1, "v")).Some?
  {
    LeftState();
    OfferedState();
    OfferedTracks(2, MirrorKey(1, "v"));
    var st := Next(TWO_IN, CONFIG, Track1(1, "v", Sendonly));
    RemovalOutcome(st, FT(1), 1);
    HeldIffContent(st.sessions[1], 2, MirrorKey(1, "v"));
    HeldIffContent(AfterRemoval(st, FT(1)).sessions[1], 2, MirrorKey(1, "v"));
  }

  /** A new endpoint holds nothing, and leaves the others as they are. */
  lemma JoinsWithNothing(st: State, c: Candidate, ft: FourTuple, b: EndpointId, m: Mid)
    requires c.sessionId == 1 && Present(st, 1, b) && !Present(st, 1, c.endpointId)
    ensures var st' := AfterNomination(st, c, ft, true, 0).0;
      && Present(st', 1, c.endpointId) && ContentAt(st'.sessions[1], c.endpointId, m).None?
      && forall k: Mid :: ContentAt(st'.sessions[1], b, k) == ContentAt(st.sessions[1], b, k)
  {
  }

  lemma ComesBack(st: State)
    requires Present(st, 1, 2) && !Present(st, 1, 1) && ContentAt(st.sessions[1], 2, MirrorKey(1, "v")).Some?
    ensures var st' := Next(Next(st, CONFIG, Hello(1, "x")), CONFIG, Check(1, "x"));
            !MirrorMatches(SessionOf(st', 1), 1, "v", 2)
  {
    HelloAgain(st, 1, "x");
    var st1 := Next(st, CONFIG, Hello(1, "x"));
    assert "x" + ":" + "r" == "x:r" && C1.Username() == "x:r";
    CheckStep(st1, 1, "x", C1);
    JoinsWithNothing(st1, C1, FT(1), 2, "v");
  }

  /** The first client offers a track, leaves and comes back: the second one still holds the mirror of the old track. */
  lemma ReusedIdHasOldMirror()
    ensures IsRun(INITIAL, CONFIG, LEFT) && IsRun(INITIAL, CONFIG, BACK_AGAIN)
    ensures MirrorMatches(SessionOf(After(INITIAL, CONFIG, LEFT), 1), 1, "v", 2)
    ensures !MirrorMatches(SessionOf(After(INITIAL, CONFIG, BACK_AGAIN), 1), 1, "v", 2)
  {
    BothIn();
    RunSnoc(INITIAL, CONFIG, BOTH_IN, Track1(1, "v", Sendonly));
    RunSnoc(INITIAL, CONFIG, OFFERED, AlertEvent(FT(1)));
    LeftMirror();
    RunSnoc(INITIAL, CONFIG, LEFT, Hello(1, "x"));
    RunSnoc(INITIAL, CONFIG, LEFT + [Hello(1, "x")], Check(1, "x"));
    ComesBack(After(INITIAL, CONFIG, LEFT));
  }
}
