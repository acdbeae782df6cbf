/**
 RTP header extensions of a media configuration: registration, negotiation and the choice of
 identifiers (src/configs/media_config.rs, section 4.2 of RFC 8285).
 */
module HeaderExtensions {
  import opened Types
  import opened Directions

  const FIRST_ID := 1
  const END_ID := 15

  datatype HeaderExtension = HeaderExtension(
    uri: string, isAudio: bool, isVideo: bool, allowedDirection: Option<Direction>)
  {
    predicate MatchesDirection(dir: Direction) {
      match allowedDirection
      case None => true
      case Some(allowed) =>
        || (allowed.Inactive? && dir.Inactive?)
        || (allowed.HasSend() && dir.HasSend())
        || (allowed.HasRecv() && dir.HasRecv())
    }

    predicate ForKind(kind: Kind) { (isAudio && kind.Audio?) || (isVideo && kind.Video?) }

    predicate Relevant(kind: Kind, dir: Direction) { MatchesDirection(dir) && ForKind(kind) }

    function MarkedFor(kind: Kind): HeaderExtension {
      this.(isAudio := isAudio || kind.Audio?, isVideo := isVideo || kind.Video?)
    }
  }

  datatype ExtensionParameters = ExtensionParameters(uri: string, id: int)

  type Assignment = map<int, HeaderExtension>

  datatype Extensions = Extensions(registered: seq<HeaderExtension>, proposed: Assignment, negotiated: Assignment)

  // ------------------------------------------------------------------ the allocator's invariant

  ghost predicate OneIdPerUri(m: Assignment) {
    forall i, j :: i in m && j in m && m[i].uri == m[j].uri ==> i == j
  }

  ghost predicate UniqueUris(exts: seq<HeaderExtension>) {
    forall i, j :: 0 <= i < j < |exts| ==> exts[i].uri != exts[j].uri
  }

  ghost predicate Allocated(x: Extensions) {
    && UniqueUris(x.registered)
    && OneIdPerUri(x.negotiated)
    && OneIdPerUri(x.proposed)
    && x.negotiated.Keys !! x.proposed.Keys
    && (forall id :: id in x.proposed ==> FIRST_ID <= id < END_ID)
  }

  /** Every identifier negotiated in `x` still stands for the same URI in `y`. */
  ghost predicate KeepsNegotiated(x: Extensions, y: Extensions) {
    forall id :: id in x.negotiated ==> id in y.negotiated && y.negotiated[id].uri == x.negotiated[id].uri
  }

  ghost function IdOf(m: Assignment, uri: string): (r: Option<int>)
    ensures r.Some? ==> r.value in m && m[r.value].uri == uri
    ensures r.None? ==> forall id :: id in m ==> m[id].uri != uri
  {
    if id :| id in m && m[id].uri == uri then Some(id) else None
  }

  function Used(x: Extensions): set<int> { x.negotiated.Keys + x.proposed.Keys }

  /** No lower identifier of the one-byte form is free. */
  ghost predicate LowestFree(used: set<int>, id: int) {
    FIRST_ID <= id < END_ID && id !in used && forall i :: FIRST_ID <= i < id ==> i in used
  }

  lemma {:induction false} LowestExists(used: set<int>, i: int)
    requires FIRST_ID <= i < END_ID && i !in used
    ensures exists id :: LowestFree(used, id)
    decreases i - FIRST_ID
  {
    if j :| FIRST_ID <= j < i && j !in used {
      LowestExists(used, j);
    } else {
      assert LowestFree(used, i);
    }
  }

  /** The lowest free identifier; there is none only if all are taken. */
  ghost function FreeId(x: Extensions): (r: Option<int>)
    ensures r.Some? ==> LowestFree(Used(x), r.value)
    ensures r.None? <==> forall i :: FIRST_ID <= i < END_ID ==> i in Used(x)
  {
    if id :| LowestFree(Used(x), id) then Some(id)
    else
      assert forall i :: FIRST_ID <= i < END_ID ==> i in Used(x) by {
        forall i | FIRST_ID <= i < END_ID
          ensures i in Used(x)
        {
          if i !in Used(x) {
            LowestExists(Used(x), i);
          }
        }
      }
      None
  }

  lemma FreeIdIs(x: Extensions, id: int)
    requires LowestFree(Used(x), id)
    ensures FreeId(x) == Some(id)
  {
  }

  // ------------------------------------------------------------------ registering

  ghost function AfterRegister(x: Extensions, uri: string, kind: Kind, allowed: Option<Direction>)
    : (Extensions, Result<()>)
  {
    if k :| 0 <= k < |x.registered| && x.registered[k].uri == uri then
      (x.(registered := x.registered[k := x.registered[k].MarkedFor(kind)]),
       if x.registered[k].allowedDirection == allowed then Ok(())
       else Err("ErrRegisterHeaderExtensionInvalidDirection"))
    else if |x.registered| > END_ID then
      (x, Err("ErrRegisterHeaderExtensionNoFreeID"))
    else
      (x.(registered := x.registered + [HeaderExtension(uri, false, false, allowed).MarkedFor(kind)]), Ok(()))
  }

  lemma RegisterKeepsAllocated(x: Extensions, uri: string, kind: Kind, allowed: Option<Direction>)
    requires Allocated(x)
    ensures var y := AfterRegister(x, uri, kind, allowed).0;
            Allocated(y) && KeepsNegotiated(x, y)
  {
  }

  /** An extension that may go in the allowed direction goes in these directions. */
  ghost predicate Admits(allowed: Option<Direction>, dir: Direction) {
    match allowed
    case None => true
    case Some(Unspecified) => false
    case Some(Sendonly) => dir == Sendonly || dir == Sendrecv
    case Some(Recvonly) => dir == Recvonly || dir == Sendrecv
    case Some(Sendrecv) => dir == Sendonly || dir == Recvonly || dir == Sendrecv
    case Some(Inactive) => dir == Inactive
  }

  /** The extension with this URI is registered, for this kind and going in this direction. */
  ghost predicate Offers(x: Extensions, uri: string, kind: Kind, dir: Direction) {
    exists k :: 0 <= k < |x.registered| && x.registered[k].uri == uri && x.registered[k].Relevant(kind, dir)
  }

  ghost predicate IsRegistered(x: Extensions, uri: string) {
    exists k :: 0 <= k < |x.registered| && x.registered[k].uri == uri
  }

  lemma RelevantIs(e: HeaderExtension, kind: Kind, dir: Direction)
    ensures e.Relevant(kind, dir) <==>
            Admits(e.allowedDirection, dir) && ((kind == Audio && e.isAudio) || (kind == Video && e.isVideo))
  {
  }

  lemma RegisteringKnown(x: Extensions, uri: string, kind: Kind, allowed: Option<Direction>, i: nat)
    requires Allocated(x) && i < |x.registered| && x.registered[i].uri == uri
    ensures var (y, r) := AfterRegister(x, uri, kind, allowed);
      && y.registered == x.registered[i := x.registered[i].MarkedFor(kind)]
      && (r.Ok? <==> x.registered[i].allowedDirection == allowed)
  {
  }

  lemma RegisteringNew(x: Extensions, uri: string, kind: Kind, allowed: Option<Direction>)
    requires !IsRegistered(x, uri)
    ensures var (y, r) := AfterRegister(x, uri, kind, allowed);
      && (r.Ok? <==> |x.registered| <= END_ID)
      && y.registered == if r.Ok? then x.registered + [HeaderExtension(uri, false, false, allowed).MarkedFor(kind)]
                         else x.registered
  {
  }

  lemma OffersAt(x: Extensions, i: nat, kind: Kind, dir: Direction)
    requires UniqueUris(x.registered) && i < |x.registered|
    ensures Offers(x, x.registered[i].uri, kind, dir) <==> x.registered[i].Relevant(kind, dir)
  {
  }

  ghost predicate RegisteredFor(x: Extensions, uri: string, allowed: Option<Direction>) {
    exists k :: 0 <= k < |x.registered| && x.registered[k].uri == uri && x.registered[k].allowedDirection == allowed
  }

  lemma KnownOffers(x: Extensions, uri: string, kind: Kind, allowed: Option<Direction>, k: Kind, dir: Direction, i: nat)
    requires Allocated(x) && i < |x.registered| && x.registered[i].uri == uri
    ensures var (y, r) := AfterRegister(x, uri, kind, allowed);
      && (r.Ok? <==> RegisteredFor(x, uri, allowed))
      && (r.Ok? && kind != UnknownKind ==>
            (Offers(y, uri, k, dir) <==> Offers(x, uri, k, dir) || (k == kind && Admits(allowed, dir))))
  {
    var y := AfterRegister(x, uri, kind, allowed).0;
    RegisterKeepsAllocated(x, uri, kind, allowed);
    RegisteringKnown(x, uri, kind, allowed, i);
    OffersAt(x, i, k, dir);
    OffersAt(y, i, k, dir);
    RelevantIs(x.registered[i], k, dir);
    RelevantIs(y.registered[i], k, dir);
  }

  lemma NewOffers(x: Extensions, uri: string, kind: Kind, allowed: Option<Direction>, k: Kind, dir: Direction)
    requires Allocated(x) && !IsRegistered(x, uri)
    ensures var (y, r) := AfterRegister(x, uri, kind, allowed);
      && (r.Ok? <==> |x.registered| <= END_ID)
      && (r.Ok? && kind != UnknownKind ==> (Offers(y, uri, k, dir) <==> k == kind && Admits(allowed, dir)))
  {
    var (y, r) := AfterRegister(x, uri, kind, allowed);
    RegisterKeepsAllocated(x, uri, kind, allowed);
    RegisteringNew(x, uri, kind, allowed);
    if r.Ok? {
      OffersAt(y, |x.registered|, k, dir);
      RelevantIs(y.registered[|x.registered|], k, dir);
    }
  }

  /**
   Registering a URI succeeds exactly if the directions are those of the first time or, for a new URI, there are at
   most fifteen. It then goes for that kind, in those directions, besides what it went for before.
   */
  lemma RegisteringOffers(x: Extensions, uri: string, kind: Kind, allowed: Option<Direction>, k: Kind, dir: Direction)
    requires Allocated(x) && kind != UnknownKind
    ensures var (y, r) := AfterRegister(x, uri, kind, allowed);
      && (r.Ok? <==> if IsRegistered(x, uri) then RegisteredFor(x, uri, allowed) else |x.registered| <= END_ID)
      && (r.Ok? ==> (Offers(y, uri, k, dir) <==> Offers(x, uri, k, dir) || (k == kind && Admits(allowed, dir))))
  {
    if IsRegistered(x, uri) {
      var i: nat :| i < |x.registered| && x.registered[i].uri == uri;
      KnownOffers(x, uri, kind, allowed, k, dir, i);
    } else {
      NewOffers(x, uri, kind, allowed, k, dir);
    }
  }

  /** For every other URI nothing changes. */
  lemma RegisteringLeavesOthers(x: Extensions, uri: string, kind: Kind, allowed: Option<Direction>, other: string,
                                k: Kind, dir: Direction)
    requires Allocated(x) && other != uri
    ensures Offers(AfterRegister(x, uri, kind, allowed).0, other, k, dir) <==> Offers(x, other, k, dir)
  {
    if IsRegistered(x, uri) {
      var i: nat :| i < |x.registered| && x.registered[i].uri == uri;
      RegisteringKnown(x, uri, kind, allowed, i);
    } else {
      RegisteringNew(x, uri, kind, allowed);
    }
    OthersStay(x, AfterRegister(x, uri, kind, allowed).0, other, k, dir);
  }

  lemma OthersStay(x: Extensions, y: Extensions, uri: string, kind: Kind, dir: Direction)
    requires |x.registered| <= |y.registered|
    requires forall j :: 0 <= j < |x.registered| && x.registered[j].uri == uri ==> y.registered[j] == x.registered[j]
    requires forall j :: 0 <= j < |y.registered| && y.registered[j].uri == uri ==>
               j < |x.registered| && x.registered[j] == y.registered[j]
    ensures Offers(y, uri, kind, dir) <==> Offers(x, uri, kind, dir)
  {
  }

  // ------------------------------------------------------------------ what the peer assigned

  ghost function AfterUpdate(x: Extensions, id: int, uri: string, kind: Kind): Extensions {
    if k :| 0 <= k < |x.registered| && x.registered[k].uri == uri then
      var local := x.registered[k];
      match IdOf(x.negotiated, uri)
      case Some(n) =>
        Extensions(x.registered, x.proposed - {id},
                   if n == id then x.negotiated[id := x.negotiated[id].MarkedFor(kind)] else x.negotiated)
      case None =>
        var isAudio, isVideo := local.isAudio && kind.Audio?, local.isVideo && kind.Video?;
        var adopted := HeaderExtension(uri, isAudio, isVideo, local.allowedDirection);
        Extensions(x.registered, x.proposed - {id},
                   if id in x.negotiated then x.negotiated else x.negotiated[id := adopted])
    else x
  }

  /** The peer's identifier is adopted if and only if neither the URI nor the identifier is negotiated yet. */
  lemma UpdateKeepsAllocated(x: Extensions, id: int, uri: string, kind: Kind)
    requires Allocated(x)
    ensures var y := AfterUpdate(x, id, uri, kind);
      && Allocated(y)
      && KeepsNegotiated(x, y)
      && ((exists k :: 0 <= k < |x.registered| && x.registered[k].uri == uri) ==>
            && id !in y.proposed
            && (IdOf(y.negotiated, uri) == Some(id) <==>
                 IdOf(x.negotiated, uri) == Some(id) || (IdOf(x.negotiated, uri).None? && id !in x.negotiated)))
  {
    var y := AfterUpdate(x, id, uri, kind);
    if exists k :: 0 <= k < |x.registered| && x.registered[k].uri == uri {
      match IdOf(x.negotiated, uri)
      case Some(n) =>
        assert y.negotiated[n].uri == uri;
      case None =>
        if id !in x.negotiated {
          assert y.negotiated[id].uri == uri;
        }
    }
  }

  /**
   An extension that is adopted under the peer's identifier goes for the section's kind, in the directions registered,
   if it was registered for that kind; one that was negotiated goes for the section's kind besides.
   */
  lemma AdoptedGoesFor(x: Extensions, id: int, uri: string, kind: Kind, k: Kind, dir: Direction)
    requires Allocated(x) && IsRegistered(x, uri) && kind != UnknownKind
    ensures var y := AfterUpdate(x, id, uri, kind);
      IdOf(y.negotiated, uri) == Some(id) ==>
        && id in y.negotiated
        && (y.negotiated[id].Relevant(k, dir) <==>
            if id in x.negotiated then
              Admits(x.negotiated[id].allowedDirection, dir)
              && (x.negotiated[id].ForKind(k) || k == kind)
            else k == kind && Offers(x, uri, kind, dir))
  {
    var i: nat :| i < |x.registered| && x.registered[i].uri == uri;
    var y := AfterUpdate(x, id, uri, kind);
    UpdateKeepsAllocated(x, id, uri, kind);
    OffersAt(x, i, kind, dir);
    RelevantIs(x.registered[i], k, dir);
    if IdOf(y.negotiated, uri) == Some(id) {
      RelevantIs(y.negotiated[id], k, dir);
    }
  }

  // ------------------------------------------------------------------ proposing identifiers

  /** The identifier an extension goes by: the negotiated one, else the proposed one. */
  ghost function AssignedId(x: Extensions, uri: string): Option<int> {
    if IdOf(x.negotiated, uri).Some? then IdOf(x.negotiated, uri) else IdOf(x.proposed, uri)
  }

  function Proposal(e: HeaderExtension): HeaderExtension {
    HeaderExtension(e.uri, e.isAudio, e.isVideo, e.allowedDirection)
  }

  ghost function AfterProposing(x: Extensions, e: HeaderExtension, kind: Kind): Extensions {
    match IdOf(x.negotiated, e.uri)
    case Some(id) => x.(negotiated := x.negotiated[id := x.negotiated[id].MarkedFor(kind)])
    case None =>
      if IdOf(x.proposed, e.uri).Some? || FreeId(x).None? then x
      else x.(proposed := x.proposed[FreeId(x).value := Proposal(e)])
  }

  /** The state after the first `n` registered extensions have been given identifiers where possible. */
  ghost function ProposeFirst(x: Extensions, n: nat, kind: Kind, dir: Direction): (y: Extensions)
    requires n <= |x.registered|
    ensures y.registered == x.registered
  {
    if n == 0 then x
    else
      var y := ProposeFirst(x, n - 1, kind, dir);
      var e := x.registered[n - 1];
      if e.Relevant(kind, dir) then AfterProposing(y, e, kind) else y
  }

  ghost function Propose(x: Extensions, kind: Kind, dir: Direction): (y: Extensions)
    ensures y.registered == x.registered
  {
    ProposeFirst(x, |x.registered|, kind, dir)
  }

  ghost function Listed(e: HeaderExtension, id: Option<int>): seq<ExtensionParameters> {
    if id.Some? then [ExtensionParameters(e.uri, id.value)] else []
  }

  /** The relevant ones of the first `n` registered extensions under the identifiers they have in `x`. */
  ghost function AssignedList(x: Extensions, n: nat, kind: Kind, dir: Direction): seq<ExtensionParameters>
    requires n <= |x.registered|
  {
    if n == 0 then []
    else
      var e := x.registered[n - 1];
      AssignedList(x, n - 1, kind, dir) + if e.Relevant(kind, dir) then Listed(e, AssignedId(x, e.uri)) else []
  }

  /** What the mutating query answers while the kind is not negotiated. */
  ghost function MutableList(x: Extensions, kind: Kind, dir: Direction): seq<ExtensionParameters> {
    AssignedList(Propose(x, kind, dir), |x.registered|, kind, dir)
  }

  /** Proposing never takes an identifier away and never frees one. */
  ghost predicate Extends(x: Extensions, y: Extensions) {
    && y.registered == x.registered
    && y.negotiated.Keys == x.negotiated.Keys
    && x.proposed.Keys <= y.proposed.Keys
    && (forall id :: id in x.negotiated ==> y.negotiated[id].uri == x.negotiated[id].uri)
    && (forall id :: id in x.proposed ==> y.proposed[id].uri == x.proposed[id].uri)
  }

  lemma OneStepProposes(x: Extensions, e: HeaderExtension, kind: Kind)
    requires Allocated(x)
    ensures Allocated(AfterProposing(x, e, kind))
    ensures Extends(x, AfterProposing(x, e, kind))
  {
  }

  /** A fresh identifier is the lowest free one. */
  lemma FreshIdIsLowest(x: Extensions, e: HeaderExtension, kind: Kind)
    requires Allocated(x) && AssignedId(x, e.uri).None?
    ensures AssignedId(AfterProposing(x, e, kind), e.uri) == FreeId(x)
  {
    var y := AfterProposing(x, e, kind);
    if FreeId(x).Some? {
      assert y.proposed[FreeId(x).value].uri == e.uri;
    }
  }

  lemma ExtendsTransitive(x: Extensions, y: Extensions, z: Extensions)
    requires Extends(x, y) && Extends(y, z)
    ensures Extends(x, z)
  {
  }

  /** An identifier once assigned stays assigned. */
  lemma AssignedStays(x: Extensions, y: Extensions, uri: string)
    requires Allocated(x) && Allocated(y) && Extends(x, y)
    requires AssignedId(x, uri).Some?
    ensures AssignedId(y, uri) == AssignedId(x, uri)
    ensures IdOf(y.negotiated, uri) == IdOf(x.negotiated, uri)
  {
  }

  lemma SameUris(m: Assignment, n: Assignment, uri: string)
    requires m.Keys == n.Keys && forall id :: id in m ==> m[id].uri == n[id].uri
    ensures IdOf(m, uri).None? <==> IdOf(n, uri).None?
  {
  }

  lemma NothingNewWhenFull(y: Extensions, e: HeaderExtension, kind: Kind, uri: string)
    requires Allocated(y) && FreeId(y).None? && AssignedId(y, uri).None?
    ensures AssignedId(AfterProposing(y, e, kind), uri).None?
    ensures FreeId(AfterProposing(y, e, kind)).None?
  {
    var z := AfterProposing(y, e, kind);
    if IdOf(y.negotiated, e.uri).Some? {
      assert z.proposed == y.proposed && Used(z) == Used(y);
      SameUris(y.negotiated, z.negotiated, uri);
    } else {
      assert z == y;
    }
  }

  lemma FullStaysFull(x: Extensions, y: Extensions)
    requires Extends(x, y) && FreeId(x).None?
    ensures FreeId(y).None?
  {
    assert Used(x) <= Used(y);
  }

  /** Proposing again for `e` changes nothing: it has its identifier, or there is none left for it. */
  ghost predicate Settled(x: Extensions, e: HeaderExtension, kind: Kind) {
    match IdOf(x.negotiated, e.uri)
    case Some(id) => x.negotiated[id].MarkedFor(kind) == x.negotiated[id]
    case None => IdOf(x.proposed, e.uri).Some? || FreeId(x).None?
  }

  lemma SettledIsFixpoint(x: Extensions, e: HeaderExtension, kind: Kind)
    ensures Settled(x, e, kind) ==> AfterProposing(x, e, kind) == x
  {
  }

  lemma ProposingSettles(x: Extensions, e: HeaderExtension, kind: Kind)
    requires Allocated(x)
    ensures Settled(AfterProposing(x, e, kind), e, kind)
  {
    var y := AfterProposing(x, e, kind);
    OneStepProposes(x, e, kind);
    if AssignedId(x, e.uri).Some? {
      AssignedStays(x, y, e.uri);
    } else {
      FreshIdIsLowest(x, e, kind);
      if FreeId(x).None? {
        assert y == x;
      } else {
        assert y.negotiated == x.negotiated;
      }
    }
  }

  /** What is settled stays settled, under the same identifier. */
  lemma SettledStays(x: Extensions, e: HeaderExtension, f: HeaderExtension, kind: Kind)
    requires Allocated(x) && Settled(x, e, kind)
    ensures Settled(AfterProposing(x, f, kind), e, kind)
    ensures AssignedId(AfterProposing(x, f, kind), e.uri) == AssignedId(x, e.uri)
  {
    OneStepProposes(x, f, kind);
    var y := AfterProposing(x, f, kind);
    if AssignedId(x, e.uri).Some? {
      AssignedStays(x, y, e.uri);
    } else {
      NothingNewWhenFull(x, f, kind, e.uri);
    }
  }

  ghost predicate SettledFirst(x: Extensions, n: nat, kind: Kind, dir: Direction)
    requires n <= |x.registered|
  {
    forall j :: 0 <= j < n && x.registered[j].Relevant(kind, dir) ==> Settled(x, x.registered[j], kind)
  }

  lemma {:induction false} ListStays(x: Extensions, y: Extensions, n: nat, kind: Kind, dir: Direction)
    requires n <= |x.registered| && y.registered == x.registered
    requires forall j :: 0 <= j < n && x.registered[j].Relevant(kind, dir) ==>
               AssignedId(y, x.registered[j].uri) == AssignedId(x, x.registered[j].uri)
    ensures AssignedList(y, n, kind, dir) == AssignedList(x, n, kind, dir)
  {
    if n > 0 {
      ListStays(x, y, n - 1, kind, dir);
    }
  }

  /** One more extension is given its identifier; those before it keep theirs. */
  lemma ProposingKeepsList(x: Extensions, n: nat, kind: Kind, dir: Direction)
    requires n < |x.registered| && x.registered[n].Relevant(kind, dir)
    requires Allocated(x) && SettledFirst(x, n, kind, dir)
    ensures var y := AfterProposing(x, x.registered[n], kind);
      && Allocated(y)
      && y.registered == x.registered
      && SettledFirst(y, n + 1, kind, dir)
      && AssignedList(y, n, kind, dir) == AssignedList(x, n, kind, dir)
  {
    var e := x.registered[n];
    var y := AfterProposing(x, e, kind);
    OneStepProposes(x, e, kind);
    ProposingSettles(x, e, kind);
    forall j | 0 <= j < n && x.registered[j].Relevant(kind, dir)
      ensures Settled(y, x.registered[j], kind)
      ensures AssignedId(y, x.registered[j].uri) == AssignedId(x, x.registered[j].uri)
    {
      SettledStays(x, x.registered[j], e, kind);
    }
    ListStays(x, y, n, kind, dir);
  }

  lemma {:induction false} ProposedFirst(x: Extensions, n: nat, kind: Kind, dir: Direction)
    requires Allocated(x) && n <= |x.registered|
    ensures Allocated(ProposeFirst(x, n, kind, dir))
    ensures Extends(x, ProposeFirst(x, n, kind, dir))
    ensures SettledFirst(ProposeFirst(x, n, kind, dir), n, kind, dir)
  {
    if n > 0 {
      ProposedFirst(x, n - 1, kind, dir);
      var y, e := ProposeFirst(x, n - 1, kind, dir), x.registered[n - 1];
      if e.Relevant(kind, dir) {
        ProposingKeepsList(y, n - 1, kind, dir);
        OneStepProposes(y, e, kind);
        ExtendsTransitive(x, y, AfterProposing(y, e, kind));
      }
    }
  }

  /** Proposing identifiers keeps the invariant and every identifier already given out. */
  lemma ProposeKeepsAllocated(x: Extensions, kind: Kind, dir: Direction)
    requires Allocated(x)
    ensures Allocated(Propose(x, kind, dir))
    ensures Extends(x, Propose(x, kind, dir))
    ensures KeepsNegotiated(x, Propose(x, kind, dir))
  {
    ProposedFirst(x, |x.registered|, kind, dir);
  }

  lemma {:induction false} SettledProposesNothing(x: Extensions, n: nat, kind: Kind, dir: Direction)
    requires n <= |x.registered| && SettledFirst(x, n, kind, dir)
    ensures ProposeFirst(x, n, kind, dir) == x
  {
    if n > 0 {
      SettledProposesNothing(x, n - 1, kind, dir);
      SettledIsFixpoint(x, x.registered[n - 1], kind);
    }
  }

  /** Asking twice changes nothing more and answers the same. */
  lemma ProposeIdempotent(x: Extensions, kind: Kind, dir: Direction)
    requires Allocated(x)
    ensures var y := Propose(x, kind, dir);
            Propose(y, kind, dir) == y && MutableList(y, kind, dir) == MutableList(x, kind, dir)
  {
    ProposedFirst(x, |x.registered|, kind, dir);
    SettledProposesNothing(Propose(x, kind, dir), |x.registered|, kind, dir);
  }

  ghost predicate DistinctParameters(list: seq<ExtensionParameters>) {
    forall i, j :: 0 <= i < j < |list| ==> list[i].uri != list[j].uri && list[i].id != list[j].id
  }

  /** The entries of an assigned list name registered extensions under their assigned identifiers. */
  lemma {:induction false} AssignedListEntry(x: Extensions, n: nat, kind: Kind, dir: Direction, p: ExtensionParameters)
    requires n <= |x.registered|
    ensures p in AssignedList(x, n, kind, dir) <==>
              exists k :: 0 <= k < n && x.registered[k].Relevant(kind, dir)
                          && p.uri == x.registered[k].uri && AssignedId(x, p.uri) == Some(p.id)
  {
    if n > 0 {
      AssignedListEntry(x, n - 1, kind, dir, p);
      assert p in AssignedList(x, n, kind, dir) <==>
          p in AssignedList(x, n - 1, kind, dir)
          || (x.registered[n - 1].Relevant(kind, dir) && p.uri == x.registered[n - 1].uri
              && AssignedId(x, p.uri) == Some(p.id));
    }
  }

  lemma SameIdSameUri(x: Extensions, u: string, v: string)
    requires Allocated(x)
    requires AssignedId(x, u).Some? && AssignedId(x, u) == AssignedId(x, v)
    ensures u == v
  {
  }

  lemma {:induction false} AssignedListDistinct(x: Extensions, n: nat, kind: Kind, dir: Direction)
    requires Allocated(x) && n <= |x.registered|
    ensures DistinctParameters(AssignedList(x, n, kind, dir))
  {
    if n > 0 {
      AssignedListDistinct(x, n - 1, kind, dir);
      var before, e := AssignedList(x, n - 1, kind, dir), x.registered[n - 1];
      if e.Relevant(kind, dir) && AssignedId(x, e.uri).Some? {
        forall p | p in before
          ensures p.uri != e.uri && p.id != AssignedId(x, e.uri).value
        {
          AssignedListEntry(x, n - 1, kind, dir, p);
          if p.id == AssignedId(x, e.uri).value {
            SameIdSameUri(x, p.uri, e.uri);
          }
        }
      }
    }
  }

  /** The mutating query lists pairwise distinct identifiers and pairwise distinct URIs. */
  lemma MutableListDistinct(x: Extensions, kind: Kind, dir: Direction)
    requires Allocated(x)
    ensures DistinctParameters(MutableList(x, kind, dir))
  {
    ProposeKeepsAllocated(x, kind, dir);
    AssignedListDistinct(Propose(x, kind, dir), |x.registered|, kind, dir);
  }

  /**
   The mutating query lists an extension exactly if it is registered for the kind and the direction, and has an
   identifier then; it has none only if none is left.
   */
  lemma MutableListIsComplete(x: Extensions, kind: Kind, dir: Direction, uri: string)
    requires Allocated(x)
    ensures var list, y := MutableList(x, kind, dir), Propose(x, kind, dir);
      && ((exists id :: ExtensionParameters(uri, id) in list) <==>
          Offers(x, uri, kind, dir) && AssignedId(y, uri).Some?)
      && (forall id :: ExtensionParameters(uri, id) in list ==> AssignedId(y, uri) == Some(id))
      && (Offers(x, uri, kind, dir) && AssignedId(y, uri).None? ==> FreeId(y).None?)
  {
    var list, y, n := MutableList(x, kind, dir), Propose(x, kind, dir), |x.registered|;
    ProposedFirst(x, n, kind, dir);
    forall id
      ensures ExtensionParameters(uri, id) in list <==> Offers(x, uri, kind, dir) && AssignedId(y, uri) == Some(id)
    {
      AssignedListEntry(y, n, kind, dir, ExtensionParameters(uri, id));
    }
    if AssignedId(y, uri).Some? {
      assert ExtensionParameters(uri, AssignedId(y, uri).value) in list <==> Offers(x, uri, kind, dir);
    }
    if k :| 0 <= k < n && x.registered[k].uri == uri && x.registered[k].Relevant(kind, dir) {
      assert Settled(y, y.registered[k], kind);
    }
  }

  // ------------------------------------------------------------------ the read-only query

  ghost function ReadOnlyId(x: Extensions, uri: string): Option<int> {
    if AssignedId(x, uri).Some? then AssignedId(x, uri) else FreeId(x)
  }

  /** The read-only query offers the lowest free identifier to every extension that lacks one. */
  ghost function ReadOnlyFirst(x: Extensions, n: nat, kind: Kind, dir: Direction): seq<ExtensionParameters>
    requires n <= |x.registered|
  {
    if n == 0 then []
    else
      var e := x.registered[n - 1];
      ReadOnlyFirst(x, n - 1, kind, dir) + if e.Relevant(kind, dir) then Listed(e, ReadOnlyId(x, e.uri)) else []
  }

  ghost function ReadOnlyList(x: Extensions, kind: Kind, dir: Direction): seq<ExtensionParameters> {
    ReadOnlyFirst(x, |x.registered|, kind, dir)
  }

  ghost predicate Lacks(x: Extensions, k: nat, kind: Kind, dir: Direction) {
    k < |x.registered| && x.registered[k].Relevant(kind, dir) && AssignedId(x, x.registered[k].uri).None?
  }

  /** Not more than one relevant extension still lacks an identifier. */
  ghost predicate AtMostOneLacks(x: Extensions, kind: Kind, dir: Direction) {
    forall j, k :: Lacks(x, j, kind, dir) && Lacks(x, k, kind, dir) ==> j == k
  }

  ghost predicate NoneLacksBefore(x: Extensions, n: nat, kind: Kind, dir: Direction) {
    forall j: nat :: j < n ==> !Lacks(x, j, kind, dir)
  }

  lemma {:induction false} ReadOnlyEntry(x: Extensions, n: nat, k: nat, kind: Kind, dir: Direction)
    requires k < n <= |x.registered| && x.registered[k].Relevant(kind, dir) && ReadOnlyId(x, x.registered[k].uri).Some?
    ensures ExtensionParameters(x.registered[k].uri, ReadOnlyId(x, x.registered[k].uri).value)
            in ReadOnlyFirst(x, n, kind, dir)
  {
    if k < n - 1 {
      ReadOnlyEntry(x, n - 1, k, kind, dir);
    }
  }

  /** Two extensions without identifiers are offered the same one. */
  lemma ReadOnlyCollides(x: Extensions, j: nat, k: nat, kind: Kind, dir: Direction)
    requires Allocated(x) && Lacks(x, j, kind, dir) && Lacks(x, k, kind, dir) && j != k
    requires FreeId(x).Some?
    ensures !DistinctParameters(ReadOnlyList(x, kind, dir))
  {
    var list := ReadOnlyList(x, kind, dir);
    ReadOnlyEntry(x, |x.registered|, j, kind, dir);
    ReadOnlyEntry(x, |x.registered|, k, kind, dir);
    var p := ExtensionParameters(x.registered[j].uri, FreeId(x).value);
    var q := ExtensionParameters(x.registered[k].uri, FreeId(x).value);
    assert x.registered[j].uri != x.registered[k].uri;
    var a :| 0 <= a < |list| && list[a] == p;
    var b :| 0 <= b < |list| && list[b] == q;
    assert a != b && list[a].id == list[b].id;
  }

  lemma NoProposalFor(x: Extensions, y: Extensions, e: HeaderExtension, kind: Kind)
    requires Allocated(x) && Allocated(y) && Extends(x, y)
    requires AssignedId(x, e.uri).Some? || FreeId(x).None?
    ensures AfterProposing(y, e, kind).proposed == y.proposed
  {
    if AssignedId(x, e.uri).Some? {
      AssignedStays(x, y, e.uri);
    } else {
      FullStaysFull(x, y);
    }
  }

  lemma NoProposalAt(x: Extensions, k: nat, kind: Kind, dir: Direction)
    requires Allocated(x) && k < |x.registered|
    requires !Lacks(x, k, kind, dir) || FreeId(x).None?
    ensures ProposeFirst(x, k + 1, kind, dir).proposed == ProposeFirst(x, k, kind, dir).proposed
  {
    ProposedFirst(x, k, kind, dir);
    if x.registered[k].Relevant(kind, dir) {
      NoProposalFor(x, ProposeFirst(x, k, kind, dir), x.registered[k], kind);
    }
  }

  /** Nothing is proposed while no extension lacks an identifier, nor when none is left. */
  lemma {:induction false} NoProposalsBefore(x: Extensions, n: nat, kind: Kind, dir: Direction)
    requires Allocated(x) && n <= |x.registered|
    requires NoneLacksBefore(x, n, kind, dir) || FreeId(x).None?
    ensures ProposeFirst(x, n, kind, dir).proposed == x.proposed
  {
    if n > 0 {
      NoProposalsBefore(x, n - 1, kind, dir);
      NoProposalAt(x, n - 1, kind, dir);
    }
  }

  /** An extension gets from the mutating query what the read-only one offered it. */
  lemma SameIdProposed(x: Extensions, y: Extensions, e: HeaderExtension, kind: Kind)
    requires Allocated(x) && Allocated(y) && Extends(x, y)
    requires AssignedId(x, e.uri).Some? || y.proposed == x.proposed
    ensures AssignedId(AfterProposing(y, e, kind), e.uri) == ReadOnlyId(x, e.uri)
  {
    if AssignedId(x, e.uri).Some? {
      AssignedStays(x, y, e.uri);
      OneStepProposes(y, e, kind);
      AssignedStays(y, AfterProposing(y, e, kind), e.uri);
    } else {
      assert Used(y) == Used(x);
      assert forall id :: id in y.negotiated ==> y.negotiated[id].uri == x.negotiated[id].uri;
      FreshIdIsLowest(y, e, kind);
    }
  }

  /** Where one proposal at most is made, and where none can be made, both queries see the same. */
  lemma {:induction false} ReadOnlyFollows(x: Extensions, n: nat, kind: Kind, dir: Direction)
    requires Allocated(x) && n <= |x.registered|
    requires AtMostOneLacks(x, kind, dir) || FreeId(x).None?
    ensures ReadOnlyFirst(x, n, kind, dir) == AssignedList(ProposeFirst(x, n, kind, dir), n, kind, dir)
  {
    if n > 0 {
      ReadOnlyFollows(x, n - 1, kind, dir);
      if x.registered[n - 1].Relevant(kind, dir) {
        ReadOnlyStep(x, n - 1, kind, dir);
      }
    }
  }

  lemma ReadOnlyStep(x: Extensions, k: nat, kind: Kind, dir: Direction)
    requires Allocated(x) && k < |x.registered| && x.registered[k].Relevant(kind, dir)
    requires AtMostOneLacks(x, kind, dir) || FreeId(x).None?
    ensures var y, z := ProposeFirst(x, k, kind, dir), ProposeFirst(x, k + 1, kind, dir);
      && AssignedList(z, k, kind, dir) == AssignedList(y, k, kind, dir)
      && AssignedId(z, x.registered[k].uri) == ReadOnlyId(x, x.registered[k].uri)
  {
    ProposedFirst(x, k, kind, dir);
    var y, e := ProposeFirst(x, k, kind, dir), x.registered[k];
    ProposingKeepsList(y, k, kind, dir);
    if AssignedId(x, e.uri).None? {
      assert Lacks(x, k, kind, dir);
      assert NoneLacksBefore(x, k, kind, dir) || FreeId(x).None?;
      NoProposalsBefore(x, k, kind, dir);
    }
    SameIdProposed(x, y, e, kind);
  }

  /**
   The read-only query agrees with the mutating one if and only if at most one relevant extension
   lacks an identifier or no identifier is left.
   */
  lemma ReadOnlyAgrees(x: Extensions, kind: Kind, dir: Direction)
    requires Allocated(x)
    ensures ReadOnlyList(x, kind, dir) == MutableList(x, kind, dir)
       <==> AtMostOneLacks(x, kind, dir) || FreeId(x).None?
  {
    if AtMostOneLacks(x, kind, dir) || FreeId(x).None? {
      ReadOnlyFollows(x, |x.registered|, kind, dir);
    } else {
      var j: nat, k: nat :| Lacks(x, j, kind, dir) && Lacks(x, k, kind, dir) && j != k;
      ReadOnlyCollides(x, j, k, kind, dir);
      MutableListDistinct(x, kind, dir);
    }
  }
}
