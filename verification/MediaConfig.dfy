/**
 The media configuration: codecs and header extensions that have been registered and negotiated
 (src/configs/media_config.rs).
 */
module MediaConfigs {
  import opened Types
  import opened Directions
  import opened HeaderExtensions
  import opened Codecs

  /** A media section as far as the configuration reads it; parsing the codecs or extensions may have failed. */
  datatype OfferedMedia = OfferedMedia(
    name: string, codecs: Result<seq<Codec>>, extensions: Result<seq<ExtensionParameters>>)

  datatype Config = Config(
    negotiatedVideo: bool, negotiatedAudio: bool,
    videoCodecs: seq<Codec>, audioCodecs: seq<Codec>,
    negotiatedVideoCodecs: seq<Codec>, negotiatedAudioCodecs: seq<Codec>,
    extensions: Extensions)
  {
    function Attempted(kind: Kind): bool {
      (kind.Video? && negotiatedVideo) || (kind.Audio? && negotiatedAudio)
    }

    function Registered(kind: Kind): seq<Codec> { if kind.Audio? then audioCodecs else videoCodecs }

    function Negotiated(kind: Kind): seq<Codec> { if kind.Audio? then negotiatedAudioCodecs else negotiatedVideoCodecs }
  }

  /** The kind that a section settles, if it is the first section of that kind. */
  function SettledKind(c: Config, media: OfferedMedia): Kind {
    if !c.negotiatedAudio && Fmtp.Lower(media.name) == "audio" then Audio
    else if !c.negotiatedVideo && Fmtp.Lower(media.name) == "video" then Video
    else UnknownKind
  }

  function Attempting(c: Config, kind: Kind): Config {
    match kind
    case Audio => c.(negotiatedAudio := true)
    case Video => c.(negotiatedVideo := true)
    case UnknownKind => c
  }

  function WithCodecs(c: Config, kind: Kind, more: seq<Codec>): Config {
    match kind
    case Audio => c.(negotiatedAudioCodecs := Pushed(c.negotiatedAudioCodecs, more))
    case Video => c.(negotiatedVideoCodecs := Pushed(c.negotiatedVideoCodecs, more))
    case UnknownKind => c
  }

  ghost function UpdatedExtensions(x: Extensions, ps: seq<ExtensionParameters>, kind: Kind): Extensions
    decreases |ps|
  {
    if ps == [] then x else UpdatedExtensions(AfterUpdate(x, ps[0].id, ps[0].uri, kind), ps[1..], kind)
  }

  /** The codecs of the section are matched, and where any match, its extensions are taken over. */
  ghost function AfterMatching(c: Config, kind: Kind, media: OfferedMedia): (Config, Result<()>) {
    match media.codecs
    case Err(e) => (c, Err(e))
    case Ok(remote) =>
      match Classify(remote, c.Registered(kind))
      case Err(e) => (c, Err(e))
      case Ok(m) => if Chosen(m) == [] then (c, Ok(()))
          else AfterExtensions(WithCodecs(c, kind, Chosen(m)), kind, media)
  }

  ghost function AfterExtensions(c: Config, kind: Kind, media: OfferedMedia): (Config, Result<()>) {
    match media.extensions
    case Err(e) => (c, Err(e))
    case Ok(ps) => (c.(extensions := UpdatedExtensions(c.extensions, ps, kind)), Ok(()))
  }

  ghost function AfterSection(c: Config, media: OfferedMedia): (Config, Result<()>) {
    var kind := SettledKind(c, media);
    if kind == UnknownKind then (c, Ok(())) else AfterMatching(Attempting(c, kind), kind, media)
  }

  /** A section that fails ends the update; what was done before it stays. */
  ghost function AfterDescription(c: Config, media: seq<OfferedMedia>): (Config, Result<()>)
    decreases |media|
  {
    if media == [] then (c, Ok(()))
    else
      var (c', r) := AfterSection(c, media[0]);
      if r.Err? then (c', r) else AfterDescription(c', media[1..])
  }

  // ------------------------------------------------------------------ the object

  class MediaConfig {
    var negotiatedVideo: bool
    var negotiatedAudio: bool
    var videoCodecs: seq<Codec>
    var audioCodecs: seq<Codec>
    var negotiatedVideoCodecs: seq<Codec>
    var negotiatedAudioCodecs: seq<Codec>
    var registered: seq<HeaderExtension>
    var proposed: Assignment
    var negotiated: Assignment

    ghost function Allocation(): Extensions
      reads this
    {
      Extensions(registered, proposed, negotiated)
    }

    ghost function View(): Config
      reads this
    {
      Config(negotiatedVideo, negotiatedAudio, videoCodecs, audioCodecs,
             negotiatedVideoCodecs, negotiatedAudioCodecs, Allocation())
    }

    ghost predicate Valid()
      reads this
    {
      Sound(View())
    }

    constructor ()
      ensures Valid()
      ensures View() == Config(false, false, [], [], [], [], Extensions([], map[], map[]))
    {
      negotiatedVideo, negotiatedAudio := false, false;
      videoCodecs, audioCodecs, negotiatedVideoCodecs, negotiatedAudioCodecs := [], [], [], [];
      registered, proposed, negotiated := [], map[], map[];
    }

    method RegisterCodec(codec: Codec, kind: Kind) returns (r: Result<()>)
      requires Valid()
      modifies this
      ensures Valid()
      ensures r.Ok? <==> kind != UnknownKind
      ensures View() == match kind
                        case Audio => old(View()).(audioCodecs := Added(old(audioCodecs), codec))
                        case Video => old(View()).(videoCodecs := Added(old(videoCodecs), codec))
                        case UnknownKind => old(View())
    {
      match kind
      case Audio =>
        audioCodecs := AddCodec(audioCodecs, codec);
        r := Ok(());
      case Video =>
        videoCodecs := AddCodec(videoCodecs, codec);
        r := Ok(());
      case UnknownKind =>
        r := Err("ErrUnknownType");
    }

    method RegisterHeaderExtension(uri: string, kind: Kind, allowed: Option<Direction>) returns (r: Result<()>)
      requires Valid()
      modifies this
      ensures Valid()
      ensures (View(), r) == (old(View()).(extensions := AfterRegister(old(Allocation()), uri, kind, allowed).0),
                              AfterRegister(old(Allocation()), uri, kind, allowed).1)
    {
      RegisterKeepsAllocated(Allocation(), uri, kind, allowed);
      var k := 0;
      while k < |registered| && registered[k].uri != uri
        invariant 0 <= k <= |registered|
        invariant forall j :: 0 <= j < k ==> registered[j].uri != uri
      {
        k := k + 1;
      }
      assert forall j :: 0 <= j < |registered| && registered[j].uri == uri ==> j == k;
      if k == |registered| {
        if |registered| > END_ID {
          return Err("ErrRegisterHeaderExtensionNoFreeID");
        }
        registered := registered + [HeaderExtension(uri, false, false, allowed)];
      }
      var ext := registered[k];
      registered := registered[k := ext.MarkedFor(kind)];
      assert registered == AfterRegister(old(Allocation()), uri, kind, allowed).0.registered;
      r := if ext.allowedDirection == allowed then Ok(()) else Err("ErrRegisterHeaderExtensionInvalidDirection");
    }

    /** The identifier of a URI in a hash map, whatever the order of its entries. */
    static method FindUri(m: Assignment, uri: string) returns (id: Option<int>)
      requires OneIdPerUri(m)
      ensures id == IdOf(m, uri)
    {
      var todo: set<int> := m.Keys;
      while todo != {}
        invariant todo <= m.Keys
        invariant forall i :: i in m && i !in todo ==> m[i].uri != uri
        decreases todo
      {
        ghost var some := Element(todo);
        var i :| i in todo;
        if m[i].uri == uri {
          return Some(i);
        }
        todo := todo - {i};
      }
      return None;
    }

    method UpdateHeaderExtension(id: int, uri: string, kind: Kind)
      requires Allocated(Allocation())
      modifies `proposed, `negotiated
      ensures Allocated(Allocation())
      ensures Allocation() == AfterUpdate(old(Allocation()), id, uri, kind)
    {
      UpdateKeepsAllocated(Allocation(), id, uri, kind);
      var k := 0;
      while k < |registered|
        invariant 0 <= k <= |registered|
        invariant if exists j :: 0 <= j < k && registered[j].uri == uri
                  then Allocation() == AfterUpdate(old(Allocation()), id, uri, kind)
                  else Allocation() == old(Allocation())
      {
        if registered[k].uri == uri {
          var local := registered[k];
          var n := FindUri(negotiated, uri);
          if n.Some? {
            if n.value == id {
              negotiated := negotiated[id := negotiated[id].MarkedFor(kind)];
            }
          } else if id !in negotiated {
            negotiated := negotiated[id := HeaderExtension(
              uri, local.isAudio && kind.Audio?, local.isVideo && kind.Video?, local.allowedDirection)];
          }
          proposed := proposed - {id};
        }
        k := k + 1;
      }
    }

    method UpdateFromSection(media: OfferedMedia) returns (r: Result<()>)
      requires Valid()
      modifies this
      ensures Valid()
      ensures (View(), r) == AfterSection(old(View()), media)
    {
      SectionKeepsSound(View(), media);
      var kind;
      if !negotiatedAudio && Fmtp.Lower(media.name) == "audio" {
        negotiatedAudio := true;
        kind := Audio;
      } else if !negotiatedVideo && Fmtp.Lower(media.name) == "video" {
        negotiatedVideo := true;
        kind := Video;
      } else {
        return Ok(());
      }
      r := MatchSection(kind, media);
    }

    method MatchSection(kind: Kind, media: OfferedMedia) returns (r: Result<()>)
      requires Valid() && kind != UnknownKind
      modifies this
      ensures (View(), r) == AfterMatching(old(View()), kind, media)
    {
      if media.codecs.Err? {
        return Err(media.codecs.error);
      }
      var m := ClassifyAll(media.codecs.value, if kind.Audio? then audioCodecs else videoCodecs);
      if m.Err? {
        return Err(m.error);
      }
      if m.value.exact != [] {
        NegotiateCodecs(m.value.exact, kind);
      } else if m.value.partial != [] {
        NegotiateCodecs(m.value.partial, kind);
      } else {
        return Ok(());
      }
      if media.extensions.Err? {
        return Err(media.extensions.error);
      }
      UpdateExtensions(media.extensions.value, kind);
      return Ok(());
    }

    method NegotiateCodecs(codecs: seq<Codec>, kind: Kind)
      modifies `negotiatedAudioCodecs, `negotiatedVideoCodecs
      ensures View() == WithCodecs(old(View()), kind, codecs)
    {
      if kind.Audio? {
        negotiatedAudioCodecs := PushCodecs(negotiatedAudioCodecs, codecs);
      } else if kind.Video? {
        negotiatedVideoCodecs := PushCodecs(negotiatedVideoCodecs, codecs);
      }
    }

    method UpdateExtensions(ps: seq<ExtensionParameters>, kind: Kind)
      requires Allocated(Allocation())
      modifies `proposed, `negotiated
      ensures Allocated(Allocation())
      ensures Allocation() == UpdatedExtensions(old(Allocation()), ps, kind)
    {
      for k := 0 to |ps|
        invariant Allocated(Allocation())
        invariant UpdatedExtensions(old(Allocation()), ps, kind) == UpdatedExtensions(Allocation(), ps[k..], kind)
        invariant registered == old(registered)
      {
        assert ps[k..][1..] == ps[k + 1..];
        UpdateHeaderExtension(ps[k].id, ps[k].uri, kind);
      }
    }

    method UpdateFromRemoteDescription(media: seq<OfferedMedia>) returns (r: Result<()>)
      requires Valid()
      modifies this
      ensures Valid()
      ensures (View(), r) == AfterDescription(old(View()), media)
    {
      for k := 0 to |media|
        invariant Valid()
        invariant AfterDescription(old(View()), media) == AfterDescription(View(), media[k..])
      {
        assert media[k..][1..] == media[k + 1..];
        var section := UpdateFromSection(media[k]);
        if section.Err? {
          return section;
        }
      }
      return Ok(());
    }

    method GetCodecsByKind(kind: Kind) returns (codecs: seq<Codec>)
      ensures codecs == CodecsByKind(View(), kind)
    {
      match kind
      case Video => codecs := if negotiatedVideo then negotiatedVideoCodecs else videoCodecs;
      case Audio => codecs := if negotiatedAudio then negotiatedAudioCodecs else audioCodecs;
      case UnknownKind => codecs := [];
    }

    method ListNegotiated(kind: Kind, dir: Direction) returns (list: seq<ExtensionParameters>)
      ensures Enumerates(list, NegotiatedFor(negotiated, kind, dir))
    {
      list := [];
      var todo: set<int> := negotiated.Keys;
      while todo != {}
        invariant todo <= negotiated.Keys
        invariant Distinct(list)
        invariant forall p :: p in list <==> p in NegotiatedFor(negotiated, kind, dir) && p.id !in todo
        decreases todo
      {
        ghost var some := Element(todo);
        var id :| id in todo;
        todo := todo - {id};
        var e := negotiated[id];
        if e.Relevant(kind, dir) {
          assert ExtensionParameters(e.uri, id) !in list;
          list := list + [ExtensionParameters(e.uri, id)];
        }
      }
    }

    /** The lowest identifier that is neither negotiated nor proposed. */
    method FindFreeId() returns (id: Option<int>)
      ensures id == FreeId(Allocation())
    {
      var i := FIRST_ID;
      while i < END_ID
        invariant FIRST_ID <= i <= END_ID
        invariant forall j :: FIRST_ID <= j < i ==> j in Used(Allocation())
      {
        if i !in negotiated && i !in proposed {
          FreeIdIs(Allocation(), i);
          return Some(i);
        }
        i := i + 1;
      }
      return None;
    }

    method GetRtpParametersByKind(kind: Kind, dir: Direction)
      returns (list: seq<ExtensionParameters>, codecs: seq<Codec>)
      requires Valid()
      ensures codecs == CodecsByKind(View(), kind)
      ensures if View().Attempted(kind) then Enumerates(list, NegotiatedFor(negotiated, kind, dir))
              else list == ReadOnlyList(Allocation(), kind, dir)
    {
      if (negotiatedVideo && kind.Video?) || (negotiatedAudio && kind.Audio?) {
        list := ListNegotiated(kind, dir);
      } else {
        list := [];
        for k := 0 to |registered|
          invariant list == ReadOnlyFirst(Allocation(), k, kind, dir)
        {
          var e := registered[k];
          if e.Relevant(kind, dir) {
            var id := FindUri(negotiated, e.uri);
            if id.None? {
              id := FindUri(proposed, e.uri);
            }
            if id.None? {
              id := FindFreeId();
            }
            if id.Some? {
              list := list + [ExtensionParameters(e.uri, id.value)];
            }
          }
        }
      }
      codecs := GetCodecsByKind(kind);
    }

    /** Gives the extension its identifier: the negotiated one, the proposed one or a new proposal. */
    method ProposeId(e: HeaderExtension, kind: Kind) returns (id: Option<int>)
      requires Allocated(Allocation())
      modifies `proposed, `negotiated
      ensures Allocation() == AfterProposing(old(Allocation()), e, kind)
      ensures id == AssignedId(Allocation(), e.uri)
    {
      ghost var x := Allocation();
      OneStepProposes(x, e, kind);
      id := FindUri(negotiated, e.uri);
      if id.Some? {
        negotiated := negotiated[id.value := negotiated[id.value].MarkedFor(kind)];
        AssignedStays(x, Allocation(), e.uri);
        return;
      }
      id := FindUri(proposed, e.uri);
      if id.Some? {
        return;
      }
      id := FindFreeId();
      FreshIdIsLowest(x, e, kind);
      if id.Some? {
        proposed := proposed[id.value := Proposal(e)];
      }
    }

    method ProposeAll(kind: Kind, dir: Direction) returns (list: seq<ExtensionParameters>)
      requires Allocated(Allocation())
      modifies `proposed, `negotiated
      ensures Allocation() == Propose(old(Allocation()), kind, dir)
      ensures list == MutableList(old(Allocation()), kind, dir)
    {
      ghost var x := Allocation();
      list := [];
      for k := 0 to |registered|
        invariant registered == x.registered
        invariant Allocation() == ProposeFirst(x, k, kind, dir)
        invariant list == AssignedList(Allocation(), k, kind, dir)
      {
        var e := registered[k];
        if e.Relevant(kind, dir) {
          ProposedFirst(x, k, kind, dir);
          ProposingKeepsList(Allocation(), k, kind, dir);
          var id := ProposeId(e, kind);
          if id.Some? {
            list := list + [ExtensionParameters(e.uri, id.value)];
          }
        }
      }
    }

    /** Lists distinct identifiers for distinct URIs; proposals made on the way are remembered. */
    method GetMutRtpParametersByKind(kind: Kind, dir: Direction)
      returns (list: seq<ExtensionParameters>, codecs: seq<Codec>)
      requires Valid()
      modifies `proposed, `negotiated
      ensures Valid()
      ensures View() == AfterQuery(old(View()), kind, dir)
      ensures codecs == CodecsByKind(View(), kind)
      ensures DistinctParameters(list)
      ensures if View().Attempted(kind) then Enumerates(list, NegotiatedFor(negotiated, kind, dir))
              else list == MutableList(old(Allocation()), kind, dir)
    {
      if (negotiatedVideo && kind.Video?) || (negotiatedAudio && kind.Audio?) {
        list := ListNegotiated(kind, dir);
        NegotiatedListDistinct(negotiated, kind, dir, list);
      } else {
        ProposeKeepsAllocated(Allocation(), kind, dir);
        MutableListDistinct(Allocation(), kind, dir);
        list := ProposeAll(kind, dir);
      }
      codecs := GetCodecsByKind(kind);
    }
  }

  function CodecsByKind(c: Config, kind: Kind): seq<Codec> {
    if kind == UnknownKind then [] else if c.Attempted(kind) then c.Negotiated(kind) else c.Registered(kind)
  }

  function NegotiatedFor(m: Assignment, kind: Kind, dir: Direction): set<ExtensionParameters> {
    set id | id in m && m[id].Relevant(kind, dir) :: ExtensionParameters(m[id].uri, id)
  }

  lemma NegotiatedListDistinct(m: Assignment, kind: Kind, dir: Direction, list: seq<ExtensionParameters>)
    requires OneIdPerUri(m) && Enumerates(list, NegotiatedFor(m, kind, dir))
    ensures DistinctParameters(list)
  {
    forall i, j | 0 <= i < j < |list|
      ensures list[i].uri != list[j].uri && list[i].id != list[j].id
    {
      assert list[i] in NegotiatedFor(m, kind, dir) && list[j] in NegotiatedFor(m, kind, dir);
      assert list[i] != list[j];
    }
  }

  ghost function AfterQuery(c: Config, kind: Kind, dir: Direction): Config {
    if c.Attempted(kind) then c else c.(extensions := Propose(c.extensions, kind, dir))
  }

  // ------------------------------------------------------------------ what every operation keeps

  /** Both negotiated lists are closed under apt, and the header extension identifiers are in order. */
  ghost predicate Sound(c: Config) {
    && AptClosed(c.negotiatedVideoCodecs)
    && AptClosed(c.negotiatedAudioCodecs)
    && Allocated(c.extensions)
  }

  lemma {:induction false} UpdatesKeepAllocated(x: Extensions, ps: seq<ExtensionParameters>, kind: Kind)
    requires Allocated(x)
    ensures Allocated(UpdatedExtensions(x, ps, kind)) && KeepsNegotiated(x, UpdatedExtensions(x, ps, kind))
    decreases |ps|
  {
    if ps != [] {
      UpdateKeepsAllocated(x, ps[0].id, ps[0].uri, kind);
      UpdatesKeepAllocated(AfterUpdate(x, ps[0].id, ps[0].uri, kind), ps[1..], kind);
    }
  }

  lemma SectionKeepsSound(c: Config, media: OfferedMedia)
    requires Sound(c)
    ensures Sound(AfterSection(c, media).0)
  {
    var kind := SettledKind(c, media);
    if kind != UnknownKind && media.codecs.Ok? {
      var m := Classify(media.codecs.value, c.Registered(kind));
      if m.Ok? {
        ChosenIsClosed(media.codecs.value, c.Registered(kind));
        PushedIsClosed(c.Negotiated(kind), Chosen(m.value));
        if media.extensions.Ok? {
          UpdatesKeepAllocated(c.extensions, media.extensions.value, kind);
        }
      }
    }
  }

  /**
   The first section of a kind makes the kind attempted and adds to its codecs exactly those chosen for the section;
   whatever fails, the other kind and the registered codecs stay.
   */
  lemma SectionNegotiates(c: Config, media: OfferedMedia, kind: Kind, codec: Codec)
    requires kind != UnknownKind && !c.Attempted(kind) && Fmtp.Lower(media.name) == Fmtp.Lower(KindName(kind))
    ensures var c' := AfterSection(c, media).0;
      && c'.Attempted(kind)
      && (forall k :: k != kind && k != UnknownKind ==>
            c'.Attempted(k) == c.Attempted(k) && c'.Negotiated(k) == c.Negotiated(k))
      && (forall k :: c'.Registered(k) == c.Registered(k))
      && (HasEntry(c'.Negotiated(kind), codec) <==>
          HasEntry(c.Negotiated(kind), codec) || HasEntry(ChosenFor(c, media, kind), codec))
  {
    FirstOfKind(c, media, kind);
    PushedEntries(c.Negotiated(kind), ChosenFor(c, media, kind), codec);
    CodecsAfterSection(c, media, kind);
  }

  lemma FirstOfKind(c: Config, media: OfferedMedia, kind: Kind)
    requires kind != UnknownKind && !c.Attempted(kind) && Fmtp.Lower(media.name) == Fmtp.Lower(KindName(kind))
    ensures SettledKind(c, media) == kind
  {
    assert Fmtp.Lower("audio") == "audio" && Fmtp.Lower("video") == "video" && "audio"[0] != "video"[0];
  }

  lemma CodecsAfterSection(c: Config, media: OfferedMedia, kind: Kind)
    requires SettledKind(c, media) == kind != UnknownKind
    ensures var c' := AfterSection(c, media).0;
      && c'.Attempted(kind) && c'.Negotiated(kind) == Pushed(c.Negotiated(kind), ChosenFor(c, media, kind))
      && (forall k :: k != kind && k != UnknownKind ==>
            c'.Attempted(k) == c.Attempted(k) && c'.Negotiated(k) == c.Negotiated(k))
      && (forall k :: c'.Registered(k) == c.Registered(k))
  {
    assert Pushed(c.Negotiated(kind), []) == c.Negotiated(kind);
  }

  /** The codecs chosen for a section, if it can be read. */
  ghost function ChosenFor(c: Config, media: OfferedMedia, kind: Kind): seq<Codec> {
    if media.codecs.Ok? && Classify(media.codecs.value, c.Registered(kind)).Ok?
    then Chosen(Classify(media.codecs.value, c.Registered(kind)).value) else []
  }

  datatype Operation =
    | RegisterCodecOp(codec: Codec, kind: Kind)
    | RegisterExtensionOp(uri: string, kind: Kind, allowed: Option<Direction>)
    | UpdateOp(media: seq<OfferedMedia>)
    | QueryOp(kind: Kind, dir: Direction)

  ghost function After(c: Config, op: Operation): Config {
    match op
    case RegisterCodecOp(codec, Audio) => c.(audioCodecs := Added(c.audioCodecs, codec))
    case RegisterCodecOp(codec, Video) => c.(videoCodecs := Added(c.videoCodecs, codec))
    case RegisterCodecOp(codec, UnknownKind) => c
    case RegisterExtensionOp(uri, kind, allowed) => c.(extensions := AfterRegister(c.extensions, uri, kind, allowed).0)
    case UpdateOp(media) => AfterDescription(c, media).0
    case QueryOp(kind, dir) => AfterQuery(c, kind, dir)
  }

  /** `d` still has every negotiated identifier, and every attempted kind with the codecs negotiated for it, of `c`. */
  ghost predicate Continues(c: Config, d: Config) {
    && KeepsNegotiated(c.extensions, d.extensions)
    && (c.negotiatedAudio ==> d.negotiatedAudio && d.negotiatedAudioCodecs == c.negotiatedAudioCodecs)
    && (c.negotiatedVideo ==> d.negotiatedVideo && d.negotiatedVideoCodecs == c.negotiatedVideoCodecs)
  }

  lemma ContinuesTransitive(c: Config, d: Config, e: Config)
    requires Continues(c, d) && Continues(d, e)
    ensures Continues(c, e)
  {
  }

  lemma SectionContinues(c: Config, media: OfferedMedia)
    requires Sound(c)
    ensures Continues(c, AfterSection(c, media).0)
  {
    var kind := SettledKind(c, media);
    if kind != UnknownKind && media.extensions.Ok? {
      UpdatesKeepAllocated(c.extensions, media.extensions.value, kind);
    }
  }

  lemma {:induction false} DescriptionContinues(c: Config, media: seq<OfferedMedia>)
    requires Sound(c)
    ensures Sound(AfterDescription(c, media).0) && Continues(c, AfterDescription(c, media).0)
    decreases |media|
  {
    if media != [] {
      SectionKeepsSound(c, media[0]);
      SectionContinues(c, media[0]);
      var (c', r) := AfterSection(c, media[0]);
      if r.Ok? {
        DescriptionContinues(c', media[1..]);
        ContinuesTransitive(c, c', AfterDescription(c', media[1..]).0);
      }
    }
  }

  lemma OperationContinues(c: Config, op: Operation)
    requires Sound(c)
    ensures Sound(After(c, op)) && Continues(c, After(c, op))
  {
    match op
    case RegisterCodecOp(_, _) =>
    case RegisterExtensionOp(uri, kind, allowed) => RegisterKeepsAllocated(c.extensions, uri, kind, allowed);
    case UpdateOp(media) => DescriptionContinues(c, media);
    case QueryOp(kind, dir) => ProposeKeepsAllocated(c.extensions, kind, dir);
  }

  ghost function AfterAll(c: Config, ops: seq<Operation>): Config
    decreases |ops|
  {
    if ops == [] then c else AfterAll(After(c, ops[0]), ops[1..])
  }

  /**
   Over any sequence of operations the negotiated lists stay closed under apt and the identifiers in
   order; a negotiated identifier keeps its URI and an attempted kind keeps its codecs for ever.
   */
  lemma {:induction false} EveryRunContinues(c: Config, ops: seq<Operation>)
    requires Sound(c)
    ensures Sound(AfterAll(c, ops)) && Continues(c, AfterAll(c, ops))
    decreases |ops|
  {
    if ops != [] {
      OperationContinues(c, ops[0]);
      EveryRunContinues(After(c, ops[0]), ops[1..]);
      ContinuesTransitive(c, After(c, ops[0]), AfterAll(c, ops));
    }
  }

  const EMPTY := Config(false, false, [], [], [], [], Extensions([], map[], map[]))
  const REGISTER_TWO := [RegisterExtensionOp("a", Audio, None), RegisterExtensionOp("b", Audio, None)]

  lemma TwoRegistered()
    ensures AfterAll(EMPTY, REGISTER_TWO).extensions
         == Extensions([HeaderExtension("a", true, false, None), HeaderExtension("b", true, false, None)], map[], map[])
  {
    var e := HeaderExtension("a", true, false, None);
    assert After(EMPTY, REGISTER_TWO[0]).extensions == Extensions([e], map[], map[]);
    assert REGISTER_TWO[1..] == [REGISTER_TWO[1]] && REGISTER_TWO[1..][1..] == [];
    assert [e][0].uri != "b";
  }

  /** Two extensions registered on a new configuration are offered the same identifier by the read-only query. */
  lemma TwoExtensionsCollide()
    ensures var x := AfterAll(EMPTY, REGISTER_TWO).extensions;
      && !AtMostOneLacks(x, Audio, Sendrecv) && FreeId(x).Some?
      && !DistinctParameters(ReadOnlyList(x, Audio, Sendrecv))
      && ReadOnlyList(x, Audio, Sendrecv) != MutableList(x, Audio, Sendrecv)
  {
    var x := AfterAll(EMPTY, REGISTER_TWO).extensions;
    TwoRegistered();
    assert Used(x) == {};
    FreeIdIs(x, FIRST_ID);
    assert Lacks(x, 0, Audio, Sendrecv) && Lacks(x, 1, Audio, Sendrecv);
    ReadOnlyCollides(x, 0, 1, Audio, Sendrecv);
    ReadOnlyAgrees(x, Audio, Sendrecv);
  }

  /** The codecs of an attempted kind are closed under apt and stay for ever; before, they are the registered ones. */
  lemma AttemptedCodecsStay(c: Config, ops: seq<Operation>, kind: Kind)
    requires Sound(c) && kind != UnknownKind
    ensures c.Attempted(kind) ==>
              && AptClosed(CodecsByKind(c, kind))
              && AfterAll(c, ops).Attempted(kind)
              && CodecsByKind(AfterAll(c, ops), kind) == CodecsByKind(c, kind)
    ensures !AfterAll(c, ops).Attempted(kind) ==>
            CodecsByKind(AfterAll(c, ops), kind) == AfterAll(c, ops).Registered(kind)
  {
    EveryRunContinues(c, ops);
  }
}
