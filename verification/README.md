# A verified model of the SFU's state machines

The server is a selective forwarding unit for WebRTC that does no input or output of its own: it is fed
datagrams that have been decoded and clock ticks, and it changes its state and queues messages. This project
models the parts of it that decide something, in Dafny 4.11, and proves what holds of them for every input and
over every run. `dafny verify dfyconfig.toml` checks all of it. Nothing here executes the server.

| part | files | main results |
|---|---|---|
| joining | `Joining`, `ClientAnswers` | a client whose offer is answered, and who makes a check with what it reads in any section of the answer, becomes the endpoint it offered as, as long as its candidate and its session are there; what its answers record is decided section by section |
| transports | `Lifetimes` | on every exclusive run a transport remembers the candidate of its nomination, its latest media and its latest opening; offers go out on the latter, and a sweep goes by the former |
| signalling and forwarding | `Endpoints`, `Sessions`, `ServerStates`, `Gateway`, `GatewayHandler`, `Runs` | the tree of sessions, endpoints and transports keeps its shape on every run (`EveryRunKeepsTree`) |
| index of four-tuples | `IndexAgreement` | one step keeps the index in agreement with a search of the tree if and only if it nominates no four-tuple that another endpoint holds |
| idle sweep | `IdleSweep` | whatever the order of removal, exactly the transports active after the cutoff remain, and it is decided which index entries stay behind |
| forwarding | `FanOut` | media goes once to every ready transport of the other endpoints, and nowhere else |
| renegotiation | `Renegotiation`, `FailingOffers` | event by event it is decided when an endpoint that is to be made an offer is neither made one nor stays flagged; otherwise its flag lasts until the offer |
| publishing | `MirrorKeys`, `Tracks`, `Convergence`, `Contents`, `FailingRuns`, `FailingMirrors` | on every run it is decided, track by track and peer by peer, what is received and sent: by the direction in which a mid was offered first and by when the peer's channel opened; event by event it is decided whether a mirror keeps the kind, sender and parameters of its source |
| offers and answers | `Directions`, `Sdp`, `SdpGeneration`, `WrittenLines`, `OfferAnswer`, `Negotiations` | it is decided which offers are answered and to whom offers can be made; answers are legal and recorded; every section says the role, credentials and fingerprints meant; sections stay in place in later offers if and only if there is an application section or nothing was added |
| reception statistics | `BitWords`, `SequenceNumbers`, `ReceiverStream`, `ReceptionStatistics`, `LossHistory`, `FailingStreams` | for every packet it is decided whether the history stays right; as long as it does, each report announces the packets missing but for an error given in closed form, which is none with at most 128 numbers due |
| codecs and header extensions | `Fmtp`, `Codecs`, `HeaderExtensions`, `MediaConfig` | it is decided which codecs are chosen; negotiated lists stay closed under apt; identifiers never collide; the read-only query agrees with the mutating one under an exact condition |
| interceptor chain | `Interceptors` | nothing hop by hop gets through; report batches keep their distance, and as no stream is ever registered they are all empty |

## How the model is built

A session owns its endpoints and an endpoint its transports, so the tree is a value (`Endpoints.Session`); the
server, the gateway handler, the media configuration, the registry, the interceptor handler and a receiver stream
are classes whose methods update fields with the loops of the source. Each such method is proved equal to a
function of the old state, and the properties are proved about those functions. `Runs.Event` lists everything that
can happen to the server, and `Runs.Next` is what one event does.

Hash maps are walked in an arbitrary order. Where the order can be seen in the outcome, it is a parameter of the
specification function, and a method hands out the order it took as a ghost result; results therefore hold for
every order.

Instants are integers, durations and jitter are reals, and machine arithmetic is written out where it matters: 16-bit
sequence numbers and cycle counts wrap, the 24-bit loss count saturates.

Where the code does not do what one would expect, it is modelled as it is, the exact condition is proved, and a run or
a stream from the start shows that the exception happens:

- `IndexAgreement.StepKeepsAgreementIff`: a connectivity check may nominate a four-tuple that another endpoint holds;
  exactly then the index stops agreeing with the tree (`FailingRuns.SharedAddressBreaksIndex`).
- `Tracks.OfferedSectionReachesIff`, `Convergence.SendonlyTracks`: an offer skips a mid that its endpoint holds already,
  so that offering a track sendonly does nothing after a first offer in another direction. First offered sendrecv or
  inactive, the track is sent to exactly the peers whose channel opened after that first offer; first offered recvonly,
  it is not even received (`FailingRuns.ReofferReachesNobody`, `FailingRuns.ReofferIsNotReceived`).
- `Convergence.StepKeepsSourceIff`: a track whose own mid looks like a mirror key is turned around when a peer offers
  that mid otherwise than recvonly, and when its own endpoint's channel opens while the peer's track is received
  (`FailingRuns.MirrorShapedMidIsLost`, `FailingRuns.MirrorShapedMidIsLostOnOpening`).
- `Contents.StepKeepsMirrorIff`: a mirror stops matching its source exactly when its holder's client offers the mirror
  key as a mid of its own, when the source is itself overwritten as a mirror, or when the identifier of the source's
  endpoint is used again (`FailingMirrors.OfferedKeyHasNoSource`, `FailingMirrors.ReusedIdHasOldMirror`).
- `Joining.StepCandidates`: a candidate goes with any of its transports, so that a client with two of them cannot make
  credible checks over the one that stays (`FailingRuns.OtherTransportIsSilenced`).
- `OfferAnswer.OfferIsStable`: without an application section in the client's first offer, the data section that an
  offer appends moves as soon as a track is added (`FailingRuns.DataSectionMoves`).
- `OfferAnswer.OfferedMidsDistinctIff`, `Negotiations.OpeningMidsDistinctIff`: a track that was mirrored when it was
  offered is listed again when the peer's channel opens, so that offers have two sections with one mid
  (`FailingRuns.MirrorIsListedTwice`).
- `Negotiations.OfferIsMadeIff`: the mid made up for a data section may be that of a transceiver, and then no offer can
  be made (`FailingRuns.DataMidCollides`).
- `Renegotiation.ClientOfferIsPassedOnIff`, `Renegotiation.RenegotiationIsLostIff`: if a client's offer is answered but
  no offer can be made to one of the flagged peers, then no message is sent at all, while the flags of the peers gone
  through are down; and a channel that opens takes down the flag when there is nothing to take over, or no offer can be
  made of it (`FailingOffers.SenderlessTrackLosesRenegotiation`, `FailingOffers.LeavingLosesRenegotiation`,
  `FailingOffers.SenderlessTrackLosesOpening`).
- `Interceptors.NoReportIsEverSent`: nothing ever registers a stream with a receiver report interceptor, so that the
  statistics are kept for no stream and no report is sent.
- `LossHistory.ReportCountsLosses`: with more than 128 numbers due, a slot says what the latest number with that slot
  did, and with a whole cycle or more due the span is taken modulo 65536 (`FailingStreams.LongSpanForgets`,
  `FailingStreams.WholeCycleSaturates`).
- `LossHistory.PacketTracksIffOrderly`: a jump over the 16-bit wrap clears no slots, a jump of more than 128 numbers
  clears the packet's own slot, and a packet late by 128 or more fills another number's slot
  (`FailingStreams.WrapAnnouncesTooFew`, `FailingStreams.LongJumpLosesItself`).
- `ReceptionStatistics.ExtendedAdvances`: the extended sequence number falls back exactly when the cycle count overflows
  (`FailingStreams.CyclesRunOut`).
- `HeaderExtensions.ReadOnlyAgrees`: two extensions without an identifier are offered the same one by the read-only
  query (`MediaConfigs.TwoExtensionsCollide`).

## Model

| member | source | states |
|---|---|---|
| Runs.EveryRunKeepsTree | src/server/states.rs:59-293 | on every run no endpoint is without transports, every key is the identity of what it leads to, every transport's candidate names its session and endpoint, mids and transceivers agree |
| Runs.StepKeepsTree | src/handlers/gateway.rs:140-434 | one event of any kind keeps that shape |
| Runs.MostStepsAreKin | src/handlers/gateway.rs:269-488 | events other than checks, sweeps and alerts keep every endpoint, every transport and its candidate, and only append mids |
| Runs.NominationKeepsTree | src/handlers/gateway.rs:661-693 | a nominated pair keeps the shape, whether its endpoint is new or not |
| Runs.RemovalKeepsTree | src/server/states.rs:269-293 | removing a transport keeps the shape |
| Runs.AnsweredWithoutTransceivers | src/server/states.rs:96-113 | an offer of an endpoint that is not connected is answered only if it asks for no media |
| IndexAgreement.LookupIsTreeSearch | src/server/states.rs:243-267 | with agreement, a lookup succeeds exactly when some endpoint holds the four-tuple, and returns that one transport |
| IndexAgreement.RemovalKeepsAgreement | src/server/states.rs:269-293 | a removal, which may leave a stale entry, never takes away one that is needed |
| IndexAgreement.NominationKeepsAgreementIff | src/handlers/gateway.rs:661-693 | a nomination keeps agreement if and only if no other endpoint holds its four-tuple |
| IndexAgreement.StepKeepsAgreementIff | src/handlers/gateway.rs:188-488 | any event keeps agreement if and only if it is exclusive |
| IndexAgreement.EveryExclusiveRunAgrees | src/server/states.rs:201-293 | on every exclusive run the index agrees with the tree in spite of stale entries |
| IdleSweep.RemovalIsExact | src/server/states.rs:269-293 | a removal leaves the tree without that transport, drops what it empties and touches nothing else |
| IdleSweep.RemovalsAreExact | src/handlers/gateway.rs:158-160 | any number of removals, in any order and with repetitions, leave the tree without those transports |
| IdleSweep.SweepIsExact | src/handlers/gateway.rs:146-163 | exactly the transports with activity after the cutoff remain, their candidates go, and of the index exactly the entries of those that were the last of their endpoints; agreement and shape are kept |
| IdleSweep.RemovalsLeaveIndex | src/server/states.rs:283-289 | any removals take from the index exactly the entries of the transports that were the last of their endpoints to go |
| IdleSweep.EmptiedIffLastTaken | src/server/states.rs:283-289 | an endpoint loses all its transports if and only if some removal takes its last one |
| IdleSweep.LastIsTakenOnce | src/server/states.rs:283-289 | no two removals do, so each endpoint that goes takes one entry with it |
| IdleSweep.RemovalsDropCandidates | src/server/states.rs:290-292 | with the transports go exactly the candidates they were made from |
| Lifetimes.StepMarks | src/endpoint/transport.rs:119-142 | over one event a transport that is there afterwards has the candidate, the last activity, the channel and the readiness that the event says; no other event and no other transport is touched |
| Lifetimes.MarksAreTrue | src/endpoint/transport.rs:119-142 | the same over every exclusive run, from the events alone |
| Lifetimes.LatestActivity | src/handlers/gateway.rs:443-472 | while a transport stays, its last activity is the time of its latest media event, or of its nomination if there was none |
| Lifetimes.LatestChannel | src/handlers/gateway.rs:311-316 | while a transport stays, its channel is the handle and stream of its latest opening |
| Lifetimes.SweepGoesByMarks | src/handlers/gateway.rs:140-164 | at the end of any exclusive run, a sweep removes exactly the transports whose latest media or nomination is at or before the cutoff |
| Lifetimes.SentOffersAreWellAddressed | src/handlers/gateway.rs:695-754 | every offer that an event sends is the current one of the endpoint it goes to, on the handle and stream that the receiving transport's channel has |
| FanOut.FanOutIsExact | src/handlers/gateway.rs:436-461 | one copy for each ready transport of every other endpoint of the session, none for the sender's endpoint or another session |
| Renegotiation.OfferTakesFlagDown | src/handlers/gateway.rs:695-754 | asking for an offer takes down the flag of its endpoint and nothing else, and the offer is made if and only if no transceiver has a data section's mid and each one that is sent has a sender |
| Renegotiation.PeersAreOffered | src/handlers/gateway.rs:404-421 | every flagged peer gets one offer, in order, if and only if an offer can be made to each of them; the flags taken down are exactly those of the flagged peers up to the first that fails |
| Renegotiation.ClientOfferIsPassedOnIff | src/handlers/gateway.rs:373-424 | an offer that cannot be answered takes no flag down; otherwise answer and offers are sent if and only if an offer can be made to every flagged peer that a channel reaches: the answer first, then one offer per open channel, and flags remain only where no channel is open; else nothing is sent and the flags of the peers gone through are down |
| Renegotiation.OpeningFlags | src/handlers/gateway.rs:304-342 | an opening channel takes down the flag of its endpoint and no other, and sends one offer if tracks were taken over and it can be made, nothing if there were none |
| Renegotiation.OthersKeepFlags | src/handlers/gateway.rs:140-488 | no other event takes down the flag of an endpoint that stays |
| Renegotiation.OfferRaisesFlagsIff | src/session/mod.rs:234-252 | after a client's offer another endpoint is flagged if and only if it was or something it is sent has changed |
| Renegotiation.RenegotiationIsLostIff | src/handlers/gateway.rs:304-424 | for every event and endpoint: an endpoint flagged before or to be flagged by the event, and still there, is left without flag and offer if and only if its channel opened with nothing to take over, or with what no offer can be made of, or it was gone through after a client's offer and a flagged peer could not be made one |
| Renegotiation.FlagLastsUntilOffer | src/handlers/gateway.rs:323-423 | on every exclusive run without such a loss, the flag of an endpoint that stays is up until an offer is sent to it |
| FailingOffers.SenderlessTrackLosesRenegotiation | src/handlers/gateway.rs:404-421 | a run after which a client's offer of a track without a sender gets no answer, and the peer neither a flag nor an offer |
| FailingOffers.LeavingLosesRenegotiation | src/handlers/gateway.rs:323-342 | a run after which a flag goes down on a channel that opens with nothing to take over, without an offer |
| FailingOffers.SenderlessTrackLosesOpening | src/handlers/gateway.rs:323-342 | a run after which it goes down on a channel that opens onto a track without a sender, without an offer |
| MirrorKeys.MirrorKeyInjective | src/session/mod.rs:231 | the key "{endpoint}-{mid}" determines both, for all mids |
| MirrorKeys.DashFreeIsClientMid | src/handlers/gateway.rs:296 | a mid without a dash is no mirror key |
| Tracks.PublishedDirection | src/session/mod.rs:192-256 | what publishing a mid does to the direction of every transceiver of every endpoint |
| Tracks.PublishingReachesEveryone | src/session/mod.rs:192-256 | a mid offered sendonly for the first time is received, and everyone else in the session is sent it |
| Tracks.OfferedSectionReachesIff | src/session/mod.rs:173-180 | after a sendonly section was taken up, the track is received and everyone is sent it if and only if the mid was not held or both were so before |
| Tracks.SourceSurvivesIff | src/session/mod.rs:231-240 | another endpoint's track stays received if and only if its mid is not the mirror key of the one published or that is offered recvonly |
| Tracks.OfferTurnsHeld | src/session/mod.rs:145-278 | a whole offer turns the transceivers that others hold under its mirror keys, and no others |
| Tracks.SourceSurvivesOfferIff | src/session/mod.rs:145-278 | another endpoint's track survives a whole offer if and only if every mid first offered in it whose mirror key is the track's mid is offered recvonly |
| Tracks.OpenedDirection | src/handlers/gateway.rs:288-329 | what an opening channel does to the direction of every transceiver of every endpoint |
| Tracks.OpeningReaches | src/handlers/gateway.rs:288-329 | the endpoint is sent a peer's track afterwards if and only if the track is received or it was sent it before |
| Tracks.SourceSurvivesOpeningIff | src/handlers/gateway.rs:325-329 | the endpoint's own track survives if and only if its mid is not the mirror key of a peer's track |
| Tracks.AnsweredSectionsKeepTracks | src/session/mod.rs:258-275 | a client's answer changes no direction |
| Tracks.LocalKeepsTracks | src/session/mod.rs:297-333 | the server's own descriptions change no direction |
| Contents.PublishedContent | src/session/mod.rs:205-252 | the offering endpoint and everyone newly sent a track hold it with its kind, sender and parameters; what was held keeps its content |
| Contents.PublishedTransceiver | src/session/mod.rs:210-252 | a new transceiver has its mid and no current direction; of one that was held the direction changes at most |
| Contents.OfferContents | src/session/mod.rs:145-256 | a whole offer gives contents exactly as the first sections with each mid say, and changes none |
| Contents.OpenedContent | src/handlers/gateway.rs:288-329 | what an opening channel takes over carries what the sources carry; the rest stays |
| Contents.MirrorsCarryContents | src/handlers/gateway.rs:294-329 | each mirror is its source but for mid and direction, whatever the order of insertion |
| Contents.StepContents | src/handlers/gateway.rs:140-488 | every event does to the contents of every session what its offer or opening says, and nothing else |
| Contents.StepKeepsMirrorIff | src/session/mod.rs:219-252 | a mirror that has the kind, sender and parameters of its source keeps them over an event if and only if the event is none of three |
| Contents.EveryRunKeepsMirrors | src/session/mod.rs:219-252 | on every run without such an event mirror and source agree |
| Contents.PlainEventSpoilsNothing | src/handlers/gateway.rs:288-329 | none of the three happens for a mid that is no mirror key, unless the peer offers the key or the identifier is used again |
| Convergence.StepOutcome | src/handlers/gateway.rs:140-488 | every event does to the tracks of every session what its offer or opening says, and nothing else; newcomers hold nothing |
| Convergence.StepKeepsSourceIff | src/handlers/gateway.rs:140-488 | under any mid, a track goes on being received over an event if and only if its endpoint stays and the mid is not turned around |
| Convergence.SectionsAgree | src/session/mod.rs:145-278 | an offer's sections, up to one that fails, keep the session in agreement with what has happened in it |
| Convergence.StepConverges | src/handlers/gateway.rs:140-488 | so does every event |
| Convergence.EveryRunConverges | src/handlers/gateway.rs:288-329 | so does every run, for every endpoint, client mid and peer |
| Convergence.SendonlyTracks | src/session/mod.rs:171-256 | a track offered sendonly at any time: first offered sendonly, all joined peers have it; first sendrecv or inactive, exactly those whose channel opened afterwards; first recvonly, none, and it is not received |
| Convergence.ServerConverges | src/server/states.rs:48-55 | the same for every run from the empty server |
| FailingRuns.SharedAddressBreaksIndex | src/handlers/gateway.rs:684-690 | a run on which a second endpoint is nominated at the first one's address, and the index fails |
| FailingRuns.OtherTransportIsSilenced | src/server/states.rs:290-292 | a run after which a held transport's credentials are not credible any more |
| FailingMirrors.OfferedKeyHasNoSource | src/session/mod.rs:173-180 | a run after which a client holds a mirror key that it offered itself |
| FailingMirrors.ReusedIdHasOldMirror | src/handlers/gateway.rs:661-693 | a run after which a client that came back finds its old track still mirrored |
| FailingRuns.ReofferReachesNobody | src/session/mod.rs:173-180 | a run on which a track offered sendrecv and then sendonly never reaches the peer that has joined |
| FailingRuns.ReofferIsNotReceived | src/session/mod.rs:173-196 | a run on which a track offered recvonly and then sendonly is not received |
| FailingRuns.MirrorShapedMidIsLost | src/session/mod.rs:234-240 | a run on which a track under the mid "2-v" is lost to endpoint 2 offering "v" |
| FailingRuns.MirrorShapedMidIsLostOnOpening | src/handlers/gateway.rs:325-329 | a run on which it is lost to its own channel opening |
| FailingRuns.DataSectionMoves | src/session/mod.rs:476-482 | a run on which the data section moves |
| FailingRuns.MirrorIsListedTwice | src/handlers/gateway.rs:326-329 | a run after which an opening channel makes an endpoint hold one mid twice |
| FailingRuns.DataMidCollides | src/description/mod.rs:480-485 | a run after which no offer can be made because the data section's mid is a transceiver's |
| OfferAnswer.WrittenIsLegal | src/description/mod.rs:369-407 | the direction chosen for a section is legal for the offered one, for every direction of the transceiver |
| Sdp.GetMidValue | src/description/mod.rs:543-550 | finds the value of the first mid attribute |
| Sdp.GetPeerDirection | src/description/mod.rs:552-560 | finds the first direction that the attributes name |
| Sdp.MidAfter | src/description/mod.rs:543-550 | a mid is found behind any attributes that are not mids |
| Sdp.DirectionAfter | src/description/mod.rs:552-560 | a direction is found behind any attributes that name none |
| SdpGeneration.GenerateSections | src/session/mod.rs:413-486 | the sections of an offer or answer, with its errors |
| SdpGeneration.PopulateSdp | src/description/mod.rs:457-541 | the written description and its bundle line, or the first error |
| SdpGeneration.WrittenSection | src/description/mod.rs:187-455 | a written section is read back with its mid, kind and direction |
| SdpGeneration.PopulatedSections | src/description/mod.rs:479-530 | section for section, the description is the one asked for; an error is that of some section |
| WrittenLines.DescriptionSays | src/description/mod.rs:187-310 | every section of a written description, for data or media, says the role, the user fragment, the password and the fingerprints in order, each under its key and nothing else there; the candidate stands in the first section only |
| WrittenLines.DescriptionTells | src/description/mod.rs:312-440 | every media section tells the codecs and extensions configured for its transceiver, the restriction identifiers and, if and only if it is sendonly, the sources, groups and media stream of the sender |
| WrittenLines.AnswerTells | src/description/mod.rs:354-440 | the same of an answer, section for section against the offer |
| WrittenLines.DescriptionIsBundled | src/description/mod.rs:530-541 | a description says ice-lite once and names one bundle |
| WrittenLines.BundleNamesAllIff | src/description/mod.rs:473-530 | read word by word the bundle names all mids in order if and only if no mid contains a space |
| WrittenLines.RidsAreThoseNamed | src/description/mod.rs:109-120 | each restriction identifier that a section names is taken up once, and no other |
| WrittenLines.FirstWordIs | src/description/mod.rs:109-120 | a restriction identifier is the value up to its first space |
| Joining.OfferSays | src/handlers/gateway.rs:720-741 | an offer says actpass and the credentials of the transport it is made for |
| Joining.SentOfferSays | src/handlers/gateway.rs:695-754 | so does every offer that an event sends, of the transport it goes to |
| Joining.AnswerSays | src/server/states.rs:59-116 | an answer says passive and the credentials of the transport its offer came over, or the new ones of a client that is not connected |
| Joining.StepCandidates | src/server/states.rs:96-113 | what each event does to the candidates: an answered offer of a client that is not connected adds one with its session, endpoint, credentials and descriptions, and each transport removed takes its own |
| Joining.CandidateWaits | src/server/states.rs:180-199 | on every exclusive run a candidate waits unchanged unless one of its transports goes or its name is given out again |
| Joining.RespondsIff | src/handlers/gateway.rs:189-235 | a request is answered if and only if it is anonymous, or credible and its session is there; the response goes back to its sender, names that address and is signed like the request |
| Joining.ReadCredentialsAreCredible | src/handlers/gateway.rs:490-539 | a check with the user fragment that is read in any section of the answer is credible if and only if it is signed with the password read there |
| Joining.NominationJoins | src/handlers/gateway.rs:661-693 | a credible nomination of a client that is not connected makes it an endpoint under the session and identifier it offered with, with that offer as its remote description and no tracks |
| Joining.ClientJoins | src/handlers/gateway.rs:189-235 | all together: from the offer over any such run to the endpoint |
| OfferAnswer.MatchedIsEligible | src/session/mod.rs:423-463 | matching succeeds if and only if every mid is non-empty and every negotiable one known, and then yields exactly the eligible sections in order |
| OfferAnswer.AnswerIsCorrect | src/session/mod.rs:369-463 | the answer takes up the eligible sections in order, with their mids and with directions legal for the offered ones; the answered kind is the offered one if and only if the transceiver's is |
| OfferAnswer.SectionsHaveTransceivers | src/session/mod.rs:450-474 | every section that is not for data names a transceiver |
| OfferAnswer.NeverZeroTransceivers | src/description/mod.rs:507-517 | a description never fails for want of a transceiver |
| OfferAnswer.OfferIsDataThenMids | src/session/mod.rs:465-483 | an offer is the data sections asked for, then one section per local mid |
| OfferAnswer.OfferIsStable | src/session/mod.rs:465-483 | earlier sections begin a later offer if and only if there is an application section or nothing was added |
| OfferAnswer.OfferCovers | src/session/mod.rs:467-474 | every transceiver is offered |
| OfferAnswer.WrittenMidsAreSections | src/description/mod.rs:457-541 | the mids read from a description are those of its sections |
| OfferAnswer.OfferedMidsDistinctIff | src/session/mod.rs:465-483 | an offer's mids are distinct if and only if the data mids and the local mids are and have none in common |
| OfferAnswer.OfferSucceedsIff | src/description/mod.rs:480-530 | an offer is written if and only if no transceiver has a data section's mid and every transceiver that is sent has a sender |
| OfferAnswer.AnswerSucceedsIff | src/description/mod.rs:369-530 | an answer is written if and only if no mid is empty, every negotiable one known, no transceiver has a data section's mid and none without a sender would be written sendonly |
| OfferAnswer.SlotsAreStable | src/session/mod.rs:465-483 | the same as OfferIsStable of the mids written and of which sections are for data |
| OfferAnswer.WrittenSlotsAreSections | src/description/mod.rs:457-541 | these are what a reader finds in the description |
| Negotiations.MadeOffersStayInPlace | src/handlers/gateway.rs:695-741 | of any two offers made to an endpoint while it stays, the written sections of the earlier begin the later under the same exact condition |
| Negotiations.SectionsApplyIff | src/session/mod.rs:145-278 | the sections of an offer are all taken over if and only if each track has a mid that is not empty and is known or was read without an error; then the endpoint's transceivers are those of its first sections |
| Negotiations.KnownOfferIsAnsweredIff | src/server/states.rs:80-103 | the offer of a connected endpoint is answered if and only if its sections can be taken over, the transport is its own and an answer can be written out of the transceivers they leave |
| Negotiations.OfferIsAnsweredIff | src/server/states.rs:59-116 | the same for any offer, connected or not, from the state before it |
| Negotiations.WrittenAnswerApplies | src/session/mod.rs:297-333 | applying an answer that could be written never fails |
| Negotiations.OffersStayInPlace | src/handlers/gateway.rs:695-741 | while an endpoint stays, on any run, the sections offered earlier begin every later offer if and only if its remote description has an application section or no mid was added |
| Negotiations.OfferIsCurrent | src/session/mod.rs:338-367 | an offer that is made carries exactly the current sections and covers every transceiver |
| Negotiations.OfferIsMadeIff | src/session/mod.rs:338-367 | an endpoint of a tree of the right shape can be made an offer under the same condition |
| Negotiations.OpeningMidsDistinctIff | src/handlers/gateway.rs:325-329 | an opening channel leaves the mids distinct if and only if they were and none of the tracks is mirrored already |
| Negotiations.PublishingKeepsMidsDistinct | src/session/mod.rs:219-253 | publishing keeps distinct mids distinct |
| Negotiations.TransceiversAreNeverMissing | src/session/mod.rs:399-486 | in a tree of the right shape neither offers nor answers fail with ErrSDPZeroTransceivers |
| Negotiations.LifetimeAges | src/endpoint/mod.rs:91-105 | while an endpoint stays, its mids only grow at the end and its remote description does not change |
| Negotiations.KnownOfferAnswers | src/server/states.rs:80-103 | an accepted offer is answered correctly, out of the transceivers it left behind |
| Negotiations.LocalAnswerRecords | src/session/mod.rs:297-333 | applying an answer records for every transceiver the direction last written for it |
| Negotiations.AnswerIsRecorded | src/server/states.rs:80-103 | with distinct mids, the direction written for each section is legal and is the one recorded |
| ClientAnswers.ClientAnswerRecords | src/session/mod.rs:258-275 | a client's answer fails if and only if it has a track under an empty mid; each transceiver's current direction is sendonly, recvonly, sendrecv or inactive as the last section with its mid before that says recvonly, sendonly, sendrecv or inactive, and nothing else changes anywhere |
| ClientAnswers.InBandAnswerRecords | src/handlers/gateway.rs:425-428 | an answer over a channel is recorded so in the endpoint that holds the transport, and nowhere else |
| Sessions.PublishTrack | src/session/mod.rs:192-256 | the session after one new track, whatever the order in which the peers are met |
| Sessions.ApplyRemoteSection | src/session/mod.rs:145-275 | one section of an offer or an answer, with its error |
| Sessions.SetRemoteDescription | src/session/mod.rs:127-279 | all sections up to the first that fails |
| Sessions.SetLocalDescription | src/session/mod.rs:281-336 | the current directions after a local description |
| Sessions.GenerateMatchedSdp | src/session/mod.rs:401-511 | an offer or an answer, or its first error |
| Sessions.RemoteGrows | src/session/mod.rs:127-279 | a remote description leaves transports and stored descriptions alone, only appends mids and keeps mids and transceivers in agreement |
| Sessions.LocalGrows | src/session/mod.rs:281-336 | so does a local description |
| ServerStates.Server.constructor | src/server/states.rs:35-56 | a server without sessions, index entries and candidates |
| ServerStates.Server.CreateOrGetSession | src/server/states.rs:148-158 | the session, new and empty if there was none |
| ServerStates.Server.AcceptKnownOffer | src/server/states.rs:80-103 | the session and answer after an offer of a connected endpoint |
| ServerStates.Server.AcceptOffer | src/server/states.rs:59-116 | the state and answer after any offer, with every error |
| ServerStates.Server.AddCandidate | src/server/states.rs:180-183 | the candidate under its user name |
| ServerStates.Server.AcceptAnswer | src/server/states.rs:122-138 | the state after an answer |
| ServerStates.Server.RemoveTransport | src/server/states.rs:269-293 | the state without a transport; the index entry goes only with the endpoint |
| ServerStates.Server.AddEndpoint | src/handlers/gateway.rs:661-693 | the state after a nominated pair |
| GatewayHandlers.CollectTracks | src/handlers/gateway.rs:288-302 | each track received from another endpoint, once |
| GatewayHandlers.CollectChannelPeers | src/handlers/gateway.rs:541-589 | each transport of another endpoint with an open channel, once |
| GatewayHandlers.CollectMediaPeers | src/handlers/gateway.rs:591-632 | each ready transport of another endpoint, once |
| GatewayHandlers.CollectIdleIn | src/handlers/gateway.rs:151-155 | the idle transports of an endpoint |
| GatewayHandlers.CollectIdleInSession | src/handlers/gateway.rs:150-156 | the idle transports of a session |
| GatewayHandlers.GatewayHandler.constructor | src/handlers/gateway.rs:41-50 | the first deadline |
| GatewayHandlers.GatewayHandler.CheckStunMessage | src/handlers/gateway.rs:490-539 | a candidate if and only if the user is known, the password right, priority given, exactly one role taken and nomination left to the controlling side; none without an error if and only if no such attribute is there |
| GatewayHandlers.GatewayHandler.HandleStunMessage | src/handlers/gateway.rs:189-235 | the state after a check, with a new transport stamped with the clock, and the response |
| GatewayHandlers.GatewayHandler.CreateOfferMessage | src/handlers/gateway.rs:695-754 | the flag is down afterwards, and the offer made or the error |
| GatewayHandlers.GatewayHandler.InsertMirrors | src/handlers/gateway.rs:325-329 | the endpoint with all mirrors |
| GatewayHandlers.GatewayHandler.HandleDatachannelOpen | src/handlers/gateway.rs:269-342 | the state and messages after a channel has opened |
| GatewayHandlers.GatewayHandler.OfferToPeers | src/handlers/gateway.rs:404-423 | the state and messages after offering to the flagged peers, up to the first error |
| GatewayHandlers.GatewayHandler.HandleDatachannelMessage | src/handlers/gateway.rs:356-434 | the state and messages after an offer or an answer in band |
| GatewayHandlers.GatewayHandler.HandleMediaMessage | src/handlers/gateway.rs:436-488 | activity is stamped with the clock and each ready peer gets a copy, or the error of the lookup |
| GatewayHandlers.GatewayHandler.CollectIdle | src/handlers/gateway.rs:147-157 | all idle transports |
| GatewayHandlers.GatewayHandler.HandleTimeout | src/handlers/gateway.rs:140-164 | a due sweep removes them all and sets the next deadline; otherwise nothing changes |
| GatewayHandlers.GatewayHandler.PollTimeout | src/handlers/gateway.rs:166-175 | the earlier of the two deadlines |
| BitWords.OrSetsOneBit | src/interceptors/report/receiver_stream.rs:42-45 | or-ing in a mask is an update of the word's bits to true at one place |
| BitWords.AndNotClearsOneBit | src/interceptors/report/receiver_stream.rs:47-50 | and-ing with a mask is an update to false at one place |
| ReceiverStreams.ReceiverStream.constructor | src/interceptors/report/receiver_stream.rs:22-40 | a stream without packets |
| ReceiverStreams.ReceiverStream.SetReceived | src/interceptors/report/receiver_stream.rs:42-45 | one slot of 128 is occupied |
| ReceiverStreams.ReceiverStream.DelReceived | src/interceptors/report/receiver_stream.rs:47-50 | one slot is cleared |
| ReceiverStreams.ReceiverStream.GetReceived | src/interceptors/report/receiver_stream.rs:52-55 | whether a slot is occupied |
| ReceiverStreams.ReceiverStream.ClearGap | src/interceptors/report/receiver_stream.rs:76-78 | the slots of the skipped numbers are cleared, none when the range is empty |
| ReceiverStreams.ReceiverStream.ProcessSequence | src/interceptors/report/receiver_stream.rs:58-81 | first packet, late packet, newer packet and wrap |
| ReceiverStreams.ReceiverStream.ProcessRtp | src/interceptors/report/receiver_stream.rs:57-92 | the same with the jitter estimate |
| ReceptionStatistics.ReportEchoesSenderReport | src/interceptors/report/receiver_stream.rs:94-156 | whatever packets come in between, a report echoes the middle 32 bits of the latest sender report's time and the time since it came, in units of 1/65536 second rounded down |
| ReceiverStreams.MissingBelowDistance | src/interceptors/report/receiver_stream.rs:114-119 | the wrapping walk ends and counts no more numbers than it passes |
| ReceiverStreams.ReceiverStream.CountLost | src/interceptors/report/receiver_stream.rs:107-122 | the empty slots since the last report |
| ReceiverStreams.ReceiverStream.GenerateReport | src/interceptors/report/receiver_stream.rs:103-156 | the report packet, and the state from which the next one counts |
| ReceptionStatistics.ExtendedAdvances | src/interceptors/report/receiver_stream.rs:64-81 | a packet advances the extended number by (seq - last) mod 65536, or by nothing if 0 to 4095 behind, if and only if the cycle count does not overflow |
| ReceptionStatistics.ExtendedOverRun | src/interceptors/report/receiver_stream.rs:57-81 | over any packets the extended number is the first plus all advances, while it fits 32 bits |
| ReceptionStatistics.LossBelowSpan | src/interceptors/report/receiver_stream.rs:107-122 | the loss is below the span unless the span reads zero, which happens in two states |
| ReceptionStatistics.ReportIsExact | src/interceptors/report/receiver_stream.rs:124-153 | the per-report clamp never fires, and the fraction is the exact floor unless a whole cycle is due |
| ReceptionStatistics.TotalLostSaturates | src/interceptors/report/receiver_stream.rs:124-132 | over every run the total is the sum of the reported losses, held at 2^24 - 1 |
| ReceptionStatistics.JitterFollowsTransit | src/interceptors/report/receiver_stream.rs:83-91 | a packet moves the jitter by a sixteenth of the way to the change of the transit time between it and the packet before; the first one leaves it alone |
| ReceptionStatistics.SteadyPacketsSettle | src/interceptors/report/receiver_stream.rs:83-91 | over packets of equal transit times the jitter is multiplied by 15/16 with each |
| ReceptionStatistics.JitterStaysPositive | src/interceptors/report/receiver_stream.rs:83-91 | the jitter is never negative |
| ReceptionStatistics.ReportSpeaksOf | src/interceptors/report/receiver_stream.rs:135-153 | a report names source and receiver, the total and the jitter rounded down |
| LossHistory.FirstPacketTracks | src/interceptors/report/receiver_stream.rs:58-63 | after its first packet a stream agrees with the set of received packets |
| LossHistory.PacketTracksIffOrderly | src/interceptors/report/receiver_stream.rs:64-81 | for every packet, however late or early, agreement is kept if and only if the packet is orderly |
| LossHistory.NearPacketsAreOrderly | src/interceptors/report/receiver_stream.rs:64-81 | packets less than 128 behind or up to 128 ahead without a wrap are orderly |
| LossHistory.NextPacketIsOrderly | src/interceptors/report/receiver_stream.rs:64-81 | the next number is orderly, even over the wrap |
| LossHistory.ReportCountsSlots | src/interceptors/report/receiver_stream.rs:107-122 | however many numbers are due, a report counts those since the mark, modulo 65536, by what their slots say now |
| LossHistory.ReportCountsLosses | src/interceptors/report/receiver_stream.rs:107-122 | however many are due, a report announces the missing numbers and the received ones whose slots were emptied, less the missing ones whose slots were filled or that are more than a cycle back; with at most 128 due, exactly the span less the distinct packets received in it |
| LossHistory.ReportTracks | src/interceptors/report/receiver_stream.rs:124-153 | a report keeps agreement and moves the mark |
| LossHistory.WrapTracksHidden | src/interceptors/report/receiver_stream.rs:76-78 | after a wrap by however much, the stream agrees with a history in which the numbers with occupied slots had come |
| LossHistory.WrapHidesLosses | src/interceptors/report/receiver_stream.rs:76-78 | a report after a wrap announces the missing packets less those whose slots were still occupied, but for the same error; these are none if and only if the wrap was orderly |
| LossHistory.AnnouncedLossesAreTrue | src/interceptors/report/receiver_stream.rs:57-122 | on every orderly run each report, whatever is due, announces the packets missing since the one before and the error of ReportCountsLosses, which is none with at most 128 numbers due |
| LossHistory.FreshStreamIsTrue | src/interceptors/report/receiver_stream.rs:22-122 | so it is for every stream from its first packet on |
| FailingStreams.FreshIsNew | src/interceptors/report/receiver_stream.rs:22-40 | the streams of the following rows start as streams are made |
| FailingStreams.WrapAnnouncesTooFew | src/interceptors/report/receiver_stream.rs:76-78 | a stream on which, of two packets lost over the wrap, the report announces one |
| FailingStreams.LongJumpLosesItself | src/interceptors/report/receiver_stream.rs:66-78 | a stream on which a packet 129 ahead counts as missing though it came: 129 losses are announced where 128 packets are missing |
| FailingStreams.LongSpanForgets | src/interceptors/report/receiver_stream.rs:107-122 | streams with more than 128 numbers due on which a missing packet is not announced |
| FailingStreams.WholeCycleSaturates | src/interceptors/report/receiver_stream.rs:107-142 | a stream with a whole cycle due, whose span reads zero and whose fraction is 255 |
| FailingStreams.CyclesRunOut | src/interceptors/report/receiver_stream.rs:71-73 | a stream, from its first packet on, whose extended number falls |
| Interceptors.Registry.constructor | src/interceptors/mod.rs:61-63 | an empty registry |
| Interceptors.Registry.Add | src/interceptors/mod.rs:66-68 | builders are kept in order |
| Interceptors.Registry.Build | src/interceptors/mod.rs:71-77 | messages meet the interceptors in the order of registration |
| Interceptors.FilterRtcp | src/interceptors/report/sender_report.rs:35-46 | the packets that are not hop by hop, in order |
| Interceptors.ForwardableIsSubsequence | src/interceptors/report/sender_report.rs:35-46 | the forwarded list is a subsequence of the incoming one |
| Interceptors.ForwardedIffEndToEnd | src/interceptors/report/sender_report.rs:35-46 | a packet is forwarded if and only if it is neither a receiver report nor transport feedback |
| Interceptors.NoteMessage | src/interceptors/report/receiver_report.rs:36-52 | what the streams learn from a message |
| Interceptors.Read | src/interceptors/report/sender_report.rs:29-62 | every stage sees the message, and each SenderReport adds one filtered copy, or none if nothing is left |
| Interceptors.EmitBatch | src/interceptors/report/receiver_report.rs:67-82 | one report per stream to every transport |
| Interceptors.BatchIsExact | src/interceptors/report/receiver_report.rs:67-82 | a batch holds the report of every stream to every transport, and nothing else |
| Interceptors.BatchCounts | src/interceptors/report/receiver_report.rs:67-82 | and as many events as there are pairs of these |
| Interceptors.SenderReportsAreNoted | src/interceptors/report/receiver_report.rs:40-47 | a stream keeps the last sender report of its own source |
| Interceptors.StreamsTakeIn | src/interceptors/report/receiver_report.rs:48-52 | a stream takes in the packets of its own source, and no others |
| Interceptors.PassTimeout | src/interceptors/report/receiver_report.rs:61-90 | exactly the due stages emit a batch and set a new deadline |
| Interceptors.PollTimeout | src/interceptors/report/receiver_report.rs:92-100 | the least of all deadlines |
| Interceptors.Dispatch | src/handlers/interceptor.rs:56-70 | events are sorted by where they go, in order |
| Interceptors.ForwardedCopies | src/handlers/interceptor.rs:43-70 | the gateway gets one filtered copy per SenderReport stage and nothing is sent back |
| Interceptors.NothingHopByHop | src/interceptors/report/sender_report.rs:35-46 | no forwarded packet is hop by hop |
| Interceptors.InterceptorHandler.constructor | src/handlers/interceptor.rs:20-25 | nothing is queued |
| Interceptors.InterceptorHandler.HandleRead | src/handlers/interceptor.rs:38-88 | what reaches the gateway, for any chain, and the exceptions; never a receiver report or transport feedback |
| Interceptors.InterceptorHandler.HandleTimeout | src/handlers/interceptor.rs:90-142 | the batches of all due stages of all endpoints are queued, without exceptions |
| Interceptors.StepKeepsChain | src/interceptors/mod.rs:19-49 | reading and timeouts keep the number of stages and the ranges of their streams |
| Interceptors.BatchesAreSpaced | src/interceptors/report/receiver_report.rs:61-66 | on every run two batches of a stage are at least its interval apart |
| Interceptors.NoReportIsEverSent | src/interceptors/report/mod.rs:26-36 | whatever is registered, and whatever messages and timeouts a chain has met, a timeout sends no report |
| Interceptors.StepKeepsNoStreams | src/interceptors/report/receiver_report.rs:36-90 | neither messages nor timeouts give a stage a stream |
| Interceptors.BatchesGoOut | src/interceptors/report/receiver_report.rs:67-82 | what timeouts produce only goes out |
| Fmtp.Parse | src/description/fmtp/mod.rs:36-57 | the parameters by lower-case key, the last value winning, and the kind of format |
| Fmtp.SplitLosesNothing | src/description/fmtp/mod.rs:36-57 | the pieces of a line, joined again, are the line, and none contains the separator |
| Fmtp.LastPairDecides | src/description/fmtp/mod.rs:36-57 | a parameter has the value of the last pair with its key |
| Fmtp.EveryKeyIsGiven | src/description/fmtp/mod.rs:36-57 | a parameter is there only if some pair has its key |
| Fmtp.DecimalIsRead | src/configs/media_config.rs:540-546 | a payload type is read back from its digits if and only if it fits eight bits |
| Codecs.FuzzySearch | src/description/rtp_codec.rs:136-163 | exact if and only if some codec matches in its parameters, none if and only if none has the MIME type either |
| Codecs.FindPayload | src/configs/media_config.rs:547-563 | whether a codec has the payload type |
| Codecs.MatchRemoteCodec | src/configs/media_config.rs:527-578 | the match of a remote codec, given those classified before it |
| Codecs.ClassifyAll | src/configs/media_config.rs:657-670 | the exact and the partial matches of a section |
| Codecs.ClassifyFailsIff | src/configs/media_config.rs:527-546 | classifying fails if and only if some codec repairs what is no number |
| Codecs.MatchedInTurn | src/configs/media_config.rs:527-578 | at its place a codec is an exact match if and only if it agrees with a registered one and what it repairs is an exact match before it, and a partial one likewise |
| Codecs.ChosenPlainCodecs | src/configs/media_config.rs:657-679 | a codec that repairs nothing is chosen if and only if it is offered and agrees with a registered one or, where none does, has a registered MIME type |
| Codecs.ChosenIsClosed | src/configs/media_config.rs:657-679 | in the chosen list every codec with an apt comes after one with that payload type |
| Codecs.AddCodec | src/configs/media_config.rs:449-458 | the list with the codec, unless MIME type and payload type are there |
| Codecs.PushCodecs | src/configs/media_config.rs:628-636 | the list with several codecs added |
| Codecs.PushedKeepsPayloads | src/configs/media_config.rs:449-458 | no payload type is lost by leaving out duplicates |
| Codecs.PushedEntries | src/configs/media_config.rs:449-458 | an entry is in the joined list if and only if it is in one of the two |
| Codecs.PushedIsClosed | src/configs/media_config.rs:628-636 | adding a closed list to a closed list leaves it closed |
| HeaderExtensions.FreeId | src/configs/media_config.rs:872-889 | the lowest free identifier, and none if and only if all are taken |
| HeaderExtensions.RegisterKeepsAllocated | src/configs/media_config.rs:383-429 | registering keeps the invariant of the allocator and every negotiated identifier |
| HeaderExtensions.RegisteringOffers | src/configs/media_config.rs:383-429 | registering succeeds if and only if the directions are those of the first time or there is room, and then the URI goes for that kind too, in the directions of a written table |
| HeaderExtensions.RegisteringLeavesOthers | src/configs/media_config.rs:383-429 | other URIs go for what they went for |
| HeaderExtensions.AdoptedGoesFor | src/configs/media_config.rs:581-626 | an adopted extension goes for the section's kind if it was registered for it; a negotiated one for the section's kind besides |
| HeaderExtensions.UpdateKeepsAllocated | src/configs/media_config.rs:581-626 | the peer's identifier is adopted if and only if neither URI nor identifier is negotiated yet; the invariant is kept |
| HeaderExtensions.ProposeKeepsAllocated | src/configs/media_config.rs:808-905 | proposing keeps the invariant and every identifier given out |
| HeaderExtensions.ProposeIdempotent | src/configs/media_config.rs:808-905 | asking twice changes nothing more and answers the same |
| HeaderExtensions.MutableListDistinct | src/configs/media_config.rs:808-905 | distinct identifiers and distinct URIs |
| HeaderExtensions.MutableListIsComplete | src/configs/media_config.rs:808-905 | an extension is listed if and only if it goes for kind and direction and has an identifier, which it lacks only if none is left |
| HeaderExtensions.FreshIdIsLowest | src/configs/media_config.rs:872-889 | an extension without an identifier gets the lowest free one |
| HeaderExtensions.ReadOnlyCollides | src/configs/media_config.rs:773-795 | two extensions without an identifier are listed under the same one |
| HeaderExtensions.ReadOnlyAgrees | src/configs/media_config.rs:709-806 | the read-only query agrees with the mutating one if and only if at most one relevant extension lacks an identifier or none is left |
| MediaConfigs.TwoExtensionsCollide | src/configs/media_config.rs:773-795 | two extensions registered on a new configuration are listed under one identifier |
| MediaConfigs.MediaConfig.constructor | src/configs/media_config.rs:98-110 | nothing registered, nothing negotiated |
| MediaConfigs.MediaConfig.RegisterCodec | src/configs/media_config.rs:352-378 | the codec is added to its kind; an unknown kind is an error |
| MediaConfigs.MediaConfig.RegisterHeaderExtension | src/configs/media_config.rs:383-429 | the registered list afterwards, and the errors |
| MediaConfigs.MediaConfig.FindUri | src/configs/media_config.rs:850-871 | the identifier of a URI, whatever the order of the map |
| MediaConfigs.MediaConfig.UpdateHeaderExtension | src/configs/media_config.rs:581-626 | both maps after the peer's assignment |
| MediaConfigs.MediaConfig.UpdateFromSection | src/configs/media_config.rs:643-686 | the configuration after one section |
| MediaConfigs.MediaConfig.MatchSection | src/configs/media_config.rs:655-686 | the same for the kind it settles |
| MediaConfigs.MediaConfig.NegotiateCodecs | src/configs/media_config.rs:628-636 | the negotiated list of one kind |
| MediaConfigs.MediaConfig.UpdateExtensions | src/configs/media_config.rs:681-686 | both maps after all assignments of a section |
| MediaConfigs.MediaConfig.UpdateFromRemoteDescription | src/configs/media_config.rs:639-689 | all sections up to the first that fails |
| MediaConfigs.AttemptedCodecsStay | src/configs/media_config.rs:691-707 | once a kind has been attempted its codecs are closed under apt and the same after any further operations; before that they are the registered ones |
| MediaConfigs.MediaConfig.ListNegotiated | src/configs/media_config.rs:715-737 | the relevant negotiated extensions, each once |
| MediaConfigs.MediaConfig.FindFreeId | src/configs/media_config.rs:872-889 | the lowest free identifier |
| MediaConfigs.MediaConfig.GetRtpParametersByKind | src/configs/media_config.rs:709-806 | the read-only list |
| MediaConfigs.MediaConfig.ProposeId | src/configs/media_config.rs:838-895 | one extension gets its identifier |
| MediaConfigs.MediaConfig.ProposeAll | src/configs/media_config.rs:838-895 | all relevant extensions get theirs |
| MediaConfigs.MediaConfig.GetMutRtpParametersByKind | src/configs/media_config.rs:808-905 | the list, distinct, and the proposals remembered |
| MediaConfigs.SectionKeepsSound | src/configs/media_config.rs:643-686 | one section keeps the lists closed and the identifiers in order |
| MediaConfigs.SectionNegotiates | src/configs/media_config.rs:643-686 | the first section of a kind makes it attempted and adds exactly the codecs chosen; the other kind and the registered codecs stay |
| MediaConfigs.OperationContinues | src/configs/media_config.rs:352-905 | so does any operation; negotiated identifiers and attempted kinds do not change any more |
| MediaConfigs.EveryRunContinues | src/configs/media_config.rs:352-905 | the same over any sequence of operations |

## Left out

- DTLS, SCTP, SRTP, data channel and STUN wire handling: only their effects on the state are events (a completed handshake, an opened channel, a binding request with its attributes, a fatal or closing alert). Integrity is equality of passwords.
- Session description text, JSON, URLs and extension map lines: the model starts from parsed sections and attributes. Reading the sources, codecs and extensions of a section is an input that may be an error.
- Random credentials, certificates, fingerprints and clocks: parameters. The errors of a missing certificate and of unparsed descriptions cannot be reached with them.
- SdpGeneration.PopulateSdp: codec and extension lines inside a written section are given per kind and direction by the configuration, so that an extension URI that is no URL is not an error here. The library that writes sections adds more lines per media source; the model writes one. The candidate line is written even where an earlier attribute has its text as a value.
- The order of restriction identifiers in a written section: the source takes it from a hash map; the model keeps the order of the offer.
- Error texts: shortened to their fixed parts, and a missing transport is named alike wherever it is noticed.
- The queues of outgoing messages of the gateway and the dispatch by kind of message: messages are results of the methods.
- Identifiers of 64 bits, ports, handles and time stamps: unbounded natural numbers.
- Floating point in the statistics: reals; rounding is not modelled, and `FractionLost` takes the exact quotient.
- The words of the packet history: sequences of 64 booleans in `ReceiverStream`, and the machine operations on bit vectors are shown to be updates of these in `BitWords`.
- The tree below the server object: nested values that are replaced, not nested objects that are mutated; there is no aliasing in the source that this hides.
- Letter case and white space outside ASCII in format parameters.
- Closing of data channels, expiry of candidates and rollback after an error: the code does none of these.
- MediaConfigs.MediaConfig.constructor: the default codecs and interceptors are not registered; they are registrations like any others.
- Metrics, logging, the demultiplexer's byte ranges, the writing half of the interceptor handler, the default codec tables and the remaining configuration helpers: they would only add easy members.
- Convergence.EveryRunConverges: speaks of mids that are not of the form of a mirror key; for those that are, Convergence.StepKeepsSourceIff says event by event what becomes of them. That a peer is sent a track only when it is due is said of peers that did not offer the mirror key as a mid of their own.
