# Verified models of pairing, cluster admission, routing and log grouping

This project models four parts of the system in Dafny 4.11 and proves what they promise
over whole runs. `dafny verify dfyconfig.toml` checks everything.

**EAP-NOOB** (`services/eap-noob`, RFC 9140). `Transcript.dfy` has the verbatim JSON arrays that
Hoob and the MACs cover, `Kdf.dfy` the key derivation, `Noob.dfy` both roles as step functions,
`NoobServer.dfy` and `NoobPeer.dfy` the two classes proved against those functions. `NoobGuards.dfy`
is about one role under any calls, `NoobNetwork.dfy` and `NoobAgreement.dfy` about both roles and a
network that drops, repeats, reorders and invents messages, `NoobRelay.dfy` about honest relaying,
`NoobReplies.dfy` about the answer to each message in each state, `NoobPolicy.dfy` about what a role
can be made to settle on, `NoobOob.dfy` about what an accepted Hoob vouches for. `NoobHonest.dfy`
shows that honest relaying is one of the network's runs and that the assumed laws have a model, and
`NoobDisagreement.dfy` has the runs in which the two sides end with different keys.
Cryptography is symbolic: a tag names its key and the exact bytes it covers, a key names its KDF
input, DH is commutative, and the network may send any tag under material it holds (`Setup.known`)
and only copies of tags under material it does not.

**Cluster pairing** (`services/nvpair-cluster-manager`). `Cluster.dfy` has every region the inviter
runs under `inviteMu` or `rosterMu` as one atomic function, with the answer of each disk write as an
argument; `ClusterManager.dfy` is the class with the loops and rollbacks, proved against it.
`ClusterRuns.dfy` builds all interleavings, with teardown, rejoin and crash anywhere, and logs
events. `ClusterSafety.dfy`, `ClusterOutcome.dfy`, `ClusterAck.dfy`, `ClusterRemoval.dfy` and
`ClusterReturn.dfy` prove teardown safety, single outcomes, what an acknowledgment settles, and when a
removal is final; `ClusterPairing.dfy` that an undisturbed pairing goes through, `ClusterTeardown.dfy`
what an unfinished teardown allows, `ClusterRules.dfy` what every region demands and does.
`Admission.dfy`, `AdmissionRuns.dfy` and `AdmissionStore.dfy` are the durable admission counter;
`Addresses.dfy`, `AddressRules.dfy`, `AddressRuns.dfy`, `AddressFairness.dfy`, `AddressBook.dfy` the
per-member address book, what it keeps and dials, its dial budget and which hints get probed.

**Request routing** (`services/lmstudio-proxy`). `Routing.dfy` resolves candidates,
`Reservations.dfy` spreads bursts, `Proxy.dfy` holds the class and loops, `Sse.dfy` the streaming
completion detector and `SseSplits.dfy` its answers on lines past 64 KiB.

**Identifier grouping** (`scripts/collectlogs`). `Grouping.dfy` proves merging by pointer equal to
connectivity, `GroupContents.dfy` reads what a group holds off the calls, `ClearAddresses.dfy` says
when an address left in the clear ties groups together, and `Discovery.dfy` is the heap version
proved against the grouping.

Where a property turned out narrower than one would hope, the code is kept as it is, an input shows
the failure, and the exact condition is proved:

- Agreement on Kz against a network that holds no key depends on how many out-of-band calls changed
  each side: for counts n and m every run agrees if and only if n <= 1 or m <= 1
  (`AgreementExactlyWhen`); above that a run with exactly those counts registers both sides with
  different keys (`KeysCanDiffer`). The network may name any NoobId, and the same counts are needed when
  it names only those a role has sent; the run is of that kind. Agreement itself holds for any network
  (`KeyAgreement`).
- `nodes:remove` is final exactly when the proof is still held at the drop
  (`DropIsFinalExactlyWhenHeld`). It can be lost in between if a newer admission of the same node is
  pinned, its proof cleared, and that pairing is then rolled back (`RemovalCanBeOvertaken`).
- A bare address report keeps the LastSuccess order exactly when no stored stamp is negative
  (`ReportKeepsOrderWhen`, `NegativeStampBreaksOrder`); normalizing clamps stamps from above only.
- When a hint u is probed, another hint v on offer can be passed over at the next probe exactly when
  v's attempt stamp is ahead of the clock, or equal to it with v stored behind u, and both hints and
  the clock last that long (`FairExactlyWhen`, for any record). `FutureStampStarves` and
  `TiedStampStarves` are the two ways; if neither holds at the first probe, all later ones are fair
  (`ProbesAreFair`).
- A join outlasts a restart exactly when no marker of an earlier teardown is on disk while memory has
  forgotten it (`JoinLastsExactlyWhen`). Only a teardown that cannot write its journal forgets an
  unfinished one (`OnlyFailedBeginForgets`), and then the next restart tears down whatever was joined
  since (`ForgottenTeardownUndoesJoin`).
- The admission counter wraps at 2^64; the order breaks exactly if something had been activated
  (`WrapBreaksOrder`).
- A second end of file keeps a complete body complete exactly when the held line is blank
  (`SecondEof`).
- With lines past 64 KiB the answer can depend on where the reads were split. The set of answers over
  all splits is computed from the lines (`AnswersAreExact`), and the splits agree exactly when complete
  is the only answer in it or not in it (`SplitsAgreeExactlyWhen`). A complete stream can be judged
  incomplete (`LongLineDependsOnChunking`), and an unfinished one complete (`DroppedPrefixMakesMarker`).
- link looks up the addresses it leaves in the clear. Linking a call with and without them gives the
  same groups if and only if each one that has an owner has the owner of an identifier the call
  registers, or, when the call registers nothing, they all have one owner
  (`ClearAddressesAreIdleExactlyWhen`, for every state; `ClearAddressesConnectExactlyWhen` for chains of
  calls, `NothingTiedExactlyWhen` for whole runs). `ClearAddressJoins` is two calls that such an address
  joins.

## Model

| member | source | states |
|---|---|---|
| `Transcript.JsonArray` | services/eap-noob/mac.go:35-50 | the loop writes the bracketed, comma-separated entries verbatim, an empty one as `""` |
| `Transcript.SelfDelimiting` | services/eap-noob/mac.go:35-50 | two JSON values that each run up to a comma or bracket cannot overlap unequally, whatever strings, escapes and nesting they hold |
| `Transcript.ArrayInjective` | services/eap-noob/mac.go:35-76 | lists of JSON values, of any lengths, give the same bytes if and only if they agree entry by entry |
| `Transcript.VerbatimInjective` | services/eap-noob/mac.go:52-76 | fully populated transcripts with the same bytes are the same list |
| `Kdf.BlocksSplit` | services/eap-noob/kdf.go:29-43 | the k-th 32 bytes of the output are the hash under counter k + 1 |
| `Kdf.Be32IsTheCounter` | services/eap-noob/kdf.go:31-40 | the four counter bytes spell the counter, so different counters give different hash inputs |
| `Kdf.OneStepKdf` | services/eap-noob/kdf.go:29-43 | the loop returns exactly `outLen` bytes, a prefix of the hash blocks 1, 2, ... |
| `Kdf.DeriveCompletion` | services/eap-noob/kdf.go:61-72 | Kms, Kmp and Kz are the hash blocks of counters 8, 9 and 10 of one secret; the first 224 bytes are MSK, EMSK, AMSK, MethodID |
| `Kdf.FixedInfoInjective` | services/eap-noob/kdf.go:49-57 | equal fixed info means equal Noobs, and equal nonces exactly when the peer nonces have one length |
| `Noob.BestVersionIsGreatest` | services/eap-noob/peer.go:421-429 | the choice is the greatest non-negative common version, and there is none only if there is no such version |
| `Noob.BestVersionLoop` | services/eap-noob/peer.go:421-429 | the loop computes that choice |
| `Noob.FirstSupportedIsFirst` | services/eap-noob/peer.go:431-438 | the first supported suite in the server's order that the peer lists, and none only if none is common |
| `Noob.FirstSupportedLoop` | services/eap-noob/peer.go:431-438 | the loop computes that choice |
| `NoobServer.Server.constructor` | services/eap-noob/server.go:49-63 | defaults filled in, state Unregistered, nothing negotiated |
| `NoobServer.Server.Receive` | services/eap-noob/server.go:93-120 | dispatch by type, with the whole next state and outcome given by the step function the run theorems are about |
| `NoobServer.Server.ReceiveDiscovery` | services/eap-noob/server.go:122-147 | reported peer state and NAI are taken over, and the pair of states picks completion, waiting, negotiation or a mismatch |
| `NoobServer.Server.BuildNegotiationRequest` | services/eap-noob/server.go:149-185 | the offer sent is the offer recorded in the transcript, under a fresh PeerId |
| `NoobServer.Server.ReceiveNegotiation` | services/eap-noob/server.go:187-264 | the peer's selection is checked in the source's order, then recorded verbatim with a fresh key and nonce |
| `NoobServer.Server.ReceiveKeyExchange` | services/eap-noob/server.go:266-297 | only from Unregistered with suite and key; records secret, Np and PKp and moves to Waiting |
| `NoobServer.Server.BeginCompletion` | services/eap-noob/server.go:318-336 | needs a Noob; asks for the NoobId or sends MACs depending on the peer's state |
| `NoobServer.Server.ReceiveNoobId` | services/eap-noob/server.go:338-351 | MACs only for the NoobId of the recorded Noob |
| `NoobServer.Server.BuildCompletionRequest` | services/eap-noob/server.go:353-368 | keys derived from the current exchange, MACs over the current transcript |
| `NoobServer.Server.ReceiveCompletion` | services/eap-noob/server.go:370-401 | registers with Kz only after the exact MACp, and not if the store fails |
| `NoobServer.Server.OobOut` | services/eap-noob/server.go:407-430 | Waiting and direction 2 or 3 only; records the Noob and gives Hoob over the transcript |
| `NoobServer.Server.OobIn` | services/eap-noob/server.go:435-447 | the Noob is recorded before Hoob is compared; OOBReceived only on a match |
| `NoobPeer.Peer.constructor` | services/eap-noob/peer.go:52-68 | defaults filled in, NAI set, state Unregistered |
| `NoobPeer.Peer.Receive` | services/eap-noob/peer.go:90-122 | every message but a result clears the verified flag; whole next state and outcome |
| `NoobPeer.Peer.ReceiveResult` | services/eap-noob/peer.go:124-146 | success counts only right after a verified Completion request, and not if the store fails |
| `NoobPeer.Peer.ReceiveNegotiation` | services/eap-noob/peer.go:165-241 | the offer is recorded verbatim, the choice and the effective NAI are recorded and sent |
| `NoobPeer.Peer.ReceiveKeyExchange` | services/eap-noob/peer.go:243-300 | only from Unregistered with a suite; records both keys and nonces and moves to Waiting |
| `NoobPeer.Peer.ReceiveCompletion` | services/eap-noob/peer.go:327-361 | MACp is sent and the flag set only if NoobId and MACs match; keys are derived even when MACs do not |
| `NoobPeer.Peer.OobOut` | services/eap-noob/peer.go:365-373 | Waiting and direction 1 or 3 only; records the Noob and gives Hoob |
| `NoobPeer.Peer.OobIn` | services/eap-noob/peer.go:378-390 | the Noob is recorded before Hoob is compared; OOBReceived only on a match |
| `NoobPeer.Peer.OobInNoob` | services/eap-noob/peer.go:397-409 | a caller-supplied 16-byte Noob moves the peer to OOBReceived |
| `NoobGuards.ServerReceiveStep` | services/eap-noob/server.go:93-401 | any message: state forward, keys present where a MAC is made, success only for the exact MACp, registration only by success |
| `NoobGuards.PeerReceiveStep` | services/eap-noob/peer.go:90-361 | any message: state forward, a tag is sent exactly when MACs verified, success only while verified |
| `NoobGuards.ServerRunForward` | services/eap-noob/server.go:93-120 | under any calls the server's state never decreases, `registered` is set exactly in Registered, and suite, key, secret and Noob are in place where used |
| `NoobGuards.PeerRunForward` | services/eap-noob/peer.go:90-122 | the same for the peer, and a verified flag implies derived keys |
| `NoobNetwork.SameInputs` | services/eap-noob/mac.go:52-99 | a server array equal to a peer array means equal transcripts in all fifteen fields |
| `NoobAgreement.RunSound` | services/eap-noob/server.go:338-401 | in every admissible run each completion event is justified by earlier ones, and stored keys come from logged completions |
| `NoobAgreement.ServerAgreement` | services/eap-noob/server.go:353-401 | a Registered server accepted MACp under some material; unless the network holds it, the peer answered earlier with that material and an equal transcript |
| `NoobAgreement.PeerAgreement` | services/eap-noob/peer.go:124-146 | a Registered peer verified MACs before; unless the network holds the material, the server asked earlier with it and an equal transcript |
| `NoobAgreement.KeyAgreement` | services/eap-noob/peer.go:327-361 | both Registered under material the network does not hold, and either side changed by at most one out-of-band call: the stored Kz are equal, whatever results were injected or replayed |
| `NoobRelay.OfferAcceptable` | services/eap-noob/peer.go:165-201 | the peer finds a choice in an offer exactly when the configurations share a version, a suite and a direction |
| `NoobRelay.ChoiceAccepted` | services/eap-noob/server.go:187-218 | every choice the peer makes passes the server's checks |
| `NoobRelay.InitialExchange` | services/eap-noob/server.go:122-297 | relaying takes both sides to Waiting in 7 messages with the transcript, PeerId, NAI, keys, nonces and secret the configurations and fresh values say, if they share a version, a suite and a direction; else 4 messages and no progress |
| `NoobRelay.ServerToPeer` | services/eap-noob/helpers.go:95-157 | what a waiting server shows is accepted by the peer that met it, as message or as bare Noob |
| `NoobRelay.PeerToServer` | services/eap-noob/helpers.go:95-157 | what a waiting peer shows is accepted by the server that met it |
| `NoobRelay.CompletionExchange` | services/eap-noob/server.go:318-401 | after the out-of-band step a conversation of 5 or 7 messages registers both sides with the same association, its Kz derived from secret, nonces and Noob |
| `NoobRelay.PairingCompletes` | services/eap-noob/peer.go:165-361 | two fresh compatible roles, one conversation, any number of reconnections, one Noob, a last conversation: both Registered with the association that names PeerId, NAI, suite and the Kz of all that was exchanged, in 12 or 14 messages and 5 per reconnection |
| `NoobRelay.WaitingConversation` | services/eap-noob/server.go:122-145 | two sides that wait talk again: five messages with no new offer, and transcript, PeerId, nonces, keys and secret are as before |
| `NoobRelay.WaitingChangesNothing` | services/eap-noob/server.go:299-316 | the same for any number of conversations in a row |
| `NoobReplies.DiscoveryReply` | services/eap-noob/server.go:122-145 | the reply to a discovery for every pair of server and reported peer state: Type 2 under a fresh PeerId, 4, 5, 6 or an error, and what the server keeps |
| `NoobReplies.OtherPeerIdIsRefused` | services/eap-noob/server.go:449-461 | a later message under another PeerId changes nothing and is answered 2001, or 2002 where its type was not expected |
| `NoobReplies.PeerDiscloses` | services/eap-noob/peer.go:148-163 | without a verified MAC the peer tells its state, NAI, PeerId and NoobId only, and keeps everything but the verified mark |
| `NoobReplies.KeysAreTakenOnce` | services/eap-noob/peer.go:243-300 | a key is taken only while Unregistered with a suite settled, and then both entries, secret and nonce are those of this message; a bad one changes nothing |
| `NoobReplies.NoobIdReply` | services/eap-noob/server.go:338-351 | the server's MACs go out for the NoobId it recorded and no other |
| `NoobReplies.MacsReply` | services/eap-noob/peer.go:327-361 | the peer answers exactly MACs over its own transcript under the keys of the Noob it holds; which error else |
| `NoobReplies.MacpReply` | services/eap-noob/server.go:370-401 | the server registers exactly for the MACp of its own transcript while a completion is open and the store saves |
| `NoobReplies.ReflectionIsRefused` | services/eap-noob/mac.go:93-99 | no MAC of a role's own kind is accepted by it |
| `NoobReplies.FailedSaveCanBeRetried` | services/eap-noob/server.go:388-401 | after a failed save the same MACp registers the server with the same association once the store works |
| `NoobReplies.FailedSaveIsNotRetried` | services/eap-noob/peer.go:124-141 | the peer's verified mark is used up by it: further successes are refused until MACs are verified anew |
| `NoobReplies.StrayReplies` | services/eap-noob/server.go:93-120 | unreadable, untyped and unknown messages are refused without effect; an error report ends the conversation |
| `NoobPolicy.ServerWithinPolicy` | services/eap-noob/server.go:187-218 | under any calls a server that has settled uses a version, suite and direction its configuration allows, defaults included, and its transcript names exactly those |
| `NoobPolicy.PeerWithinPolicy` | services/eap-noob/peer.go:165-225 | under any calls a peer uses what it allows and what the offer in its transcript lists, in the preferred direction where both are offered |
| `NoobPolicy.SelectionReply` | services/eap-noob/server.go:187-218 | a selection is answered with a key and nonce exactly if it is readable and allowed; the first entry at fault names the error and nothing changes |
| `NoobPolicy.OfferReply` | services/eap-noob/peer.go:165-201 | an offer is answered with a selection exactly if it is readable and shares a version, suite and direction; a refusal leaves all but the PeerId |
| `NoobPolicy.DefaultsMeet` | services/eap-noob/crypto.go:50-52 | two roles left to their defaults meet on version 1, suite 2, the peer's direction and the default NAI |
| `NoobPolicy.NaiOfMeeting` | services/eap-noob/peer.go:203-212 | both sides end with the server's new NAI, else the peer's own, else the default |
| `NoobOob.ServerInputMeans` | services/eap-noob/helpers.go:143-157 | refused without a trace unless the server waits in that direction and the message names it; else the Noob is recorded and only the matching Hoob accepted |
| `NoobOob.PeerInputMeans` | services/eap-noob/helpers.go:132-157 | the same at the peer, and a bare Noob of 16 bytes is taken |
| `NoobOob.OutputMeans` | services/eap-noob/helpers.go:115-126 | a message goes out exactly while waiting in that direction, with the Noob recorded and Hoob over the transcript |
| `NoobOob.ServerBelievesExactlyWhen` | services/eap-noob/server.go:435-447 | whatever the network did before, a Noob the peer hands out at one moment is accepted by the server at another exactly if it waits for it under that PeerId and the transcripts of the Initial Exchange agree in all fourteen fields |
| `NoobOob.PeerBelievesExactlyWhen` | services/eap-noob/peer.go:378-390 | the same for the peer and a Noob the server hands out |
| `NoobHonest.RelayIsRun` | services/eap-noob/server.go:93-401 | handing each output to the other side, from any reachable state, is an admissible run of the network: everything a role sends is well-formed and its tags are accounted for |
| `NoobHonest.HonestPairingIsRun` | services/eap-noob/peer.go:90-361 | every compatible pair of configurations has an admissible run, with any number of reconnections, at most one Noob a side and no NoobId delivered that a role did not send, that ends with both roles Registered with the same association |
| `NoobHonest.LawsHaveModel` | services/eap-noob/messages.go:96-113 | one concrete library satisfies every law assumed of JSON, base64 and DH |
| `NoobDisagreement.KeysCanDiffer` | services/eap-noob/peer.go:124-146 | for all counts from two up and every compatible pair of configurations, a run with exactly those counts registers both sides with different Kz, whatever the network holds and although it names only NoobIds a role has sent |
| `NoobDisagreement.AgreementExactlyWhen` | services/eap-noob/server.go:338-401 | for counts n and m of Noobs taken by the two sides, every admissible run that registers both agrees on Kz if and only if n <= 1 or m <= 1; the same of the runs whose NoobIds were all sent by a role |
| `Cluster.PinPeer` | services/nvpair-cluster-manager/httpserver.go:791-803 | a pin that succeeds leaves that certificate pinned at no lower epoch, and no other pin changed |
| `Cluster.PutProof` | services/nvpair-cluster-manager/removal_proof_store.go:79-112 | a put that succeeds leaves a proof of at least that epoch |
| `ClusterRuns.EverySessionIsCurrent` | services/nvpair-cluster-manager/pairing.go:271-298 | in every reachable state every live inviter session belongs to the current session generation and to its invite's cluster |
| `ClusterSafety.NoPairingOutlivesTeardown` | services/nvpair-cluster-manager/httpserver.go:711-771 | in every interleaving, a commit that writes follows a publication of its invite into the same cluster with no teardown or restart in between |
| `ClusterSafety.WritesAreLogged` | services/nvpair-cluster-manager/httpserver.go:711-771 | roster merging and startup apart, nothing but such a commit gives a node a new pin or member row |
| `ClusterSafety.NewTrustIsCurrent` | services/nvpair-cluster-manager/leave.go:199-219 | the same read off the state: a node newly trusted by pairing was written by this very region for an invite newer than the last teardown, even after rejoining the same cluster |
| `ClusterOutcome.TerminalIsFinal` | services/nvpair-cluster-manager/pairing.go:345-362 | a canceled, declined, expired, failed or rejected invite keeps its whole record, PIN included, in every continuation without a restart |
| `ClusterOutcome.RefusalIsThePeers` | services/nvpair-cluster-manager/httpserver.go:418-476 | a failure of a paired invite comes from the very peer committed for it, before its ack |
| `ClusterOutcome.PairedChangesOnlyByRefusal` | services/nvpair-cluster-manager/httpserver.go:242-287 | a paired invite is changed by no region but the one that writes Failed after that refusal, and in nothing but its state |
| `ClusterAck.SettledIsFinal` | services/nvpair-cluster-manager/httpserver.go:369-391 | when the committed peer acknowledges a paired invite, or the sweep ends the wait, its session is gone, and in every continuation of the process the record stays and no failure of it is accepted |
| `ClusterAck.OtherAckIsIgnored` | services/nvpair-cluster-manager/httpserver.go:369-383 | any other acknowledgment changes nothing |
| `ClusterAck.AckIsThePeers` | services/nvpair-cluster-manager/httpserver.go:369-391 | an accepted acknowledgment comes from the peer committed for that invite in this process |
| `ClusterAck.SweepLeavesNothingOverdue` | services/nvpair-cluster-manager/invite_expiry.go:94-178 | after a sweep no pending invite and no unlocked wait is past the cutoff; lapsed invites are Expired without a PIN, the others unchanged, and a session goes exactly if its invite lapsed or its wait is overdue |
| `ClusterPairing.PairingSucceeds` | services/nvpair-cluster-manager/httpserver.go:231-391 | from any state of an active cluster, an undisturbed invite of a welcome peer ends Paired and acknowledged, with the peer's admission as member and pin in memory and on disk and a superseded proof gone |
| `ClusterPairing.UnwelcomeIsNotPaired` | services/nvpair-cluster-manager/httpserver.go:711-751 | a peer removed at its epoch or later, or pinned under another certificate, is not paired and gains no trust |
| `ClusterTeardown.TeardownMeans` | services/nvpair-cluster-manager/teardown_store.go:57-101 | whatever fails the node is out of the cluster, sessions and pending invites are gone and earlier walks are stale; what could not be deleted is exactly what stays on disk, and the journal stays exactly if something failed |
| `ClusterTeardown.UnfinishedStaysOut` | services/nvpair-cluster-manager/teardown_store.go:54-56 | until a retry or a restart no region grants trust after an unfinished teardown |
| `ClusterTeardown.RestartFinishes` | services/nvpair-cluster-manager/teardown_store.go:103-110 | a restart that finds the marker leaves nothing of the cluster in memory or on disk |
| `ClusterTeardown.RestartResumes` | services/nvpair-cluster-manager/manager.go:262-291 | one that finds none resumes the stored admission, pins, rows and proofs |
| `ClusterTeardown.OnlyFailedBeginForgets` | services/nvpair-cluster-manager/teardown_store.go:35-39 | a marker on disk that memory has forgotten comes from a teardown that could not begin |
| `ClusterTeardown.JoinLastsExactlyWhen` | services/nvpair-cluster-manager/teardown_store.go:35-39 | a join outlasts a restart if and only if no such marker is there |
| `ClusterTeardown.ForgottenTeardownUndoesJoin` | services/nvpair-cluster-manager/teardown_store.go:35-39 | a run in which a retry that cannot begin lets the node join, and the restart takes it out again |
| `ClusterTeardown.ActiveIsAdmitted` | services/nvpair-cluster-manager/admission_store.go:97-158 | in every reachable state the active cluster is the admitted one, under a nonzero epoch |
| `ClusterTeardown.RestoreMeans` | services/nvpair-cluster-manager/rpc_identity.go:49-88 | restoring resumes the admitted cluster with exactly the members whose row and pin name one admission to it |
| `ClusterTeardown.JoinMeans` | services/nvpair-cluster-manager/rpc_identity.go:157-196 | joining takes a fresh epoch and no unfinished teardown; a failed activation leaves the node out |
| `ClusterRules.PublishMeans` | services/nvpair-cluster-manager/invite.go:228-239 | an invite is published exactly for the active admission, pending, without a PIN |
| `ClusterRules.RegisterMeans` | services/nvpair-cluster-manager/pairing.go:285-298 | a session is installed exactly for a pending invite of the current cluster and generation |
| `ClusterRules.PinMeans` | services/nvpair-cluster-manager/pairing.go:345-362 | a PIN reaches a pending invite through its live session only |
| `ClusterRules.PendingEnds` | services/nvpair-cluster-manager/cancel.go:60-81 | cancel, decline, failure, expiry or an unusable completion end a pending invite in the state each names, with session gone and trust as before |
| `ClusterRules.EndedIsIgnored` | services/nvpair-cluster-manager/httpserver.go:418-499 | once an invite is not pending they do nothing, but for the paired peer's refusal |
| `ClusterRules.AbandonMeans` | services/nvpair-cluster-manager/pairing.go:311-362 | giving up a live session fails or rejects a pending invite and no other |
| `ClusterRules.CompletionMeans` | services/nvpair-cluster-manager/httpserver.go:231-287 | a completion goes on exactly for a pending invite and a peer with an epoch |
| `ClusterRules.CommitMeans` | services/nvpair-cluster-manager/httpserver.go:711-771 | the commit pairs exactly when session, peer and writes allow it, with exactly that admission; else no trust is gained and the row written first is taken back |
| `ClusterRules.CloseMeans` | services/nvpair-cluster-manager/httpserver.go:663-700 | the record is written in its new state; a paired one waits for its ack, another loses its session |
| `ClusterRules.RefusalMeans` | services/nvpair-cluster-manager/httpserver.go:418-460 | only the committed peer's failure before its ack fails a paired invite, and it takes back member and pin exactly if they are still the ones committed |
| `ClusterRules.PrepareMeans` | services/nvpair-cluster-manager/remove.go:68-82 | a removal is prepared exactly for a member whose row and pin name one admission to the active cluster |
| `ClusterRules.DropMeans` | services/nvpair-cluster-manager/remove.go:94-117 | and carried out exactly if that is still so under this node's unchanged admission |
| `ClusterRules.AdmitMeans` | services/nvpair-cluster-manager/roster.go:315-352 | a roster entry is admitted exactly if it is newer than the pin, not removed, and under the pinned certificate |
| `ClusterRules.GossipMeans` | services/nvpair-cluster-manager/roster.go:140-204 | a gossiped removal takes at most the pin and row of its epoch, is stored only if backed by that pin, and removes a member it names |
| `ClusterRemoval.ProofEpochsGrow` | services/nvpair-cluster-manager/removal_proof_store.go:79-112 | every region keeps proofs in memory equal to disk and lowers no held proof's epoch |
| `ClusterRemoval.ProofsOnDisk` | services/nvpair-cluster-manager/removal_proof_store.go:187-230 | in every reachable state the held proofs are the ones on disk |
| `ClusterRemoval.HeldBlocksCommit` | services/nvpair-cluster-manager/httpserver.go:723-726 | while the proof is held and nothing newer was pinned, no pairing commits the node at that epoch or lower |
| `ClusterRemoval.DropHoldsProof` | services/nvpair-cluster-manager/remove.go:68-117 | every drop was prepared earlier, and its proof is held at the drop unless a newer admission was pinned since or another cluster's newer proof was kept instead |
| `ClusterRemoval.RemovedStaysRemoved` | services/nvpair-cluster-manager/remove.go:68-117 | after a drop of (x, e), a commit of x at e or lower in the same cluster implies a strictly newer admission pinned since the removal began, or a shadowed proof; any write may fail |
| `ClusterReturn.DropIsFinalExactlyWhenHeld` | services/nvpair-cluster-manager/remove.go:94-117 | a dropped admission can come back in some continuation if and only if its proof is not held right after the drop |
| `ClusterReturn.RemovalCanBeOvertaken` | services/nvpair-cluster-manager/remove.go:68-117 | a concrete run in which the drop happens without the proof and the admission can return |
| `ClusterManager.UnionEndorsements` | services/nvpair-cluster-manager/removal_proof_store.go:120-135 | the loop with its seen-set gives the merged list |
| `ClusterManager.MergeIsUnion` | services/nvpair-cluster-manager/removal_proof_store.go:120-135 | the merged list has the first list as prefix and exactly the endorsements of both |
| `ClusterManager.Manager.PutRemovalProof` | services/nvpair-cluster-manager/removal_proof_store.go:79-112 | the put, with the rollback of a failed write, in memory as on disk |
| `ClusterManager.Manager.ClearRemovalProof` | services/nvpair-cluster-manager/removal_proof_store.go:187-200 | cleared only by a strictly newer admission and only if the write succeeds |
| `ClusterManager.Manager.PinCertificate` | services/nvpair-cluster-manager/httpserver.go:791-803 | a certificate is never replaced and an epoch never lowered; a failed write changes nothing |
| `ClusterManager.Manager.PublishInitialInvite` | services/nvpair-cluster-manager/invite.go:228-239 | a pending invite of the current cluster and generation, or nothing |
| `ClusterManager.Manager.RegisterInviterSession` | services/nvpair-cluster-manager/pairing.go:285-298 | installed only while the invite is pending, the cluster the same and the generation unchanged |
| `ClusterManager.Manager.WithPendingPairing` | services/nvpair-cluster-manager/pairing.go:311-362 | the PIN or the terminal state is written only for the live session of a pending invite; a lost invite loses its session |
| `ClusterManager.Manager.CheckCompletion` | services/nvpair-cluster-manager/httpserver.go:231-287 | Completion advances only a pending invite |
| `ClusterManager.Manager.CommitGates` | services/nvpair-cluster-manager/httpserver.go:713-726 | teardown, epoch, liveness and removal gates, exactly |
| `ClusterManager.Manager.EnrollPeer` | services/nvpair-cluster-manager/httpserver.go:734-751 | member before pin before proof clearing, undone if a write fails |
| `ClusterManager.Manager.CommitPairing` | services/nvpair-cluster-manager/httpserver.go:663-771 | the whole commit: both new states are the ones the run theorems use |
| `ClusterManager.Manager.FinishInvite` | services/nvpair-cluster-manager/httpserver.go:663-700 | the last write of an operation, with the session dropped or left awaiting its ack |
| `ClusterManager.Manager.CancelInvite` | services/nvpair-cluster-manager/cancel.go:60-81 | only a pending invite can be canceled |
| `ClusterManager.Manager.RollBackPairing` | services/nvpair-cluster-manager/httpserver.go:438-460 | pin and member go only if they are still the ones this session committed |
| `ClusterManager.Manager.TerminalSignal` | services/nvpair-cluster-manager/httpserver.go:418-499 | pending invites end; a paired one only by its own peer's failure before the ack |
| `ClusterManager.Manager.AckPairing` | services/nvpair-cluster-manager/httpserver.go:369-391 | only the committed peer ends the wait, once |
| `ClusterManager.Manager.PrepareRemoval` | services/nvpair-cluster-manager/remove.go:68-82 | a proof is stored only for an authenticated member of the active cluster |
| `ClusterManager.Manager.DropRemoval` | services/nvpair-cluster-manager/remove.go:102-117 | pin and member go only if everything captured still holds |
| `ClusterManager.Manager.UnpinAll` | services/nvpair-cluster-manager/leave.go:199-219 | every pin loses its authority; exactly the files that could not be deleted stay |
| `ClusterManager.Manager.AbandonPairings` | services/nvpair-cluster-manager/pairing.go:271-276 | no session, no pending invite, a new generation |
| `ClusterManager.Manager.Teardown` | services/nvpair-cluster-manager/leave.go:199-219 | all of the above, with the teardown left pending if any write failed |
| `ClusterManager.Manager.ExpireAcks` | services/nvpair-cluster-manager/invite_expiry.go:139-178 | exactly the live, unlocked sessions past the cutoff stop waiting and go |
| `ClusterManager.Manager.ExpireInvites` | services/nvpair-cluster-manager/invite_expiry.go:99-130 | exactly the pending invites past the cutoff expire, lose their PIN and their session |
| `ClusterManager.Manager.ExpirePendingInvites` | services/nvpair-cluster-manager/invite_expiry.go:94-137 | the two together |
| `Admission.StepDurable` | services/nvpair-cluster-manager/admission_store.go:67-187 | every operation, failed write, crash and reload keeps memory equal to disk, Epoch <= Activated <= Counter, and cluster and epoch set together |
| `Admission.LoadMeans` | services/nvpair-cluster-manager/admission_store.go:31-63 | which files load, and as what |
| `Admission.WrapBreaksOrder` | services/nvpair-cluster-manager/admission_store.go:85-95 | the reservation that wraps hands out 0, and breaks the order exactly when something had been activated |
| `Admission.WrapIsReachableInPrinciple` | services/nvpair-cluster-manager/admission_store.go:85-95 | a consistent record from which it does |
| `Admission.RunDurable` | services/nvpair-cluster-manager/admission_store.go:31-187 | the invariant over any run from a loadable file with fewer than 2^64 reservations in all |
| `Admission.ActivationsIncrease` | services/nvpair-cluster-manager/admission_store.go:99-127 | over any run from a first start, activated epochs strictly increase and each was reserved earlier |
| `Admission.EnsureIsIdempotent` | services/nvpair-cluster-manager/admission_store.go:132-158 | a matching admission is never moved, a new one is minted only for a node that holds none and never left, and asking twice is asking once |
| `AdmissionRuns.RecordSaysStanding` | services/nvpair-cluster-manager/admission_store.go:99-187 | after any run the record, in memory and on disk, says what the last successful clear or activation made of the node |
| `AdmissionRuns.EnsureByStanding` | services/nvpair-cluster-manager/admission_store.go:132-158 | a member gets its own admission for its own cluster only, a node that left an error, a new node the next epoch exactly if both writes succeed and no teardown is pending |
| `AdmissionRuns.LeavingIsDurable` | services/nvpair-cluster-manager/admission_store.go:174-187 | after a successful clear, and until an activation succeeds, ensureAdmission refuses every cluster across failed writes, reservations, restarts and a wrapped counter |
| `AdmissionRuns.LoadedStands` | services/nvpair-cluster-manager/admission_store.go:31-63 | the standing each loadable file gives |
| `AdmissionStore.AdmissionFile.PersistLocked` | services/nvpair-cluster-manager/admission_store.go:67-80 | the file is replaced whole by the record in memory, or not at all |
| `AdmissionStore.AdmissionFile.ReserveEpoch` | services/nvpair-cluster-manager/admission_store.go:85-95 | the counter is restored if the write fails |
| `AdmissionStore.AdmissionFile.ActivateAdmission` | services/nvpair-cluster-manager/admission_store.go:99-127 | only a reserved epoch newer than any activated one; all four fields restored if the write fails |
| `AdmissionStore.AdmissionFile.ClearAdmission` | services/nvpair-cluster-manager/admission_store.go:174-187 | retired without touching the counter, or unchanged |
| `AdmissionStore.AdmissionFile.EnsureAdmission` | services/nvpair-cluster-manager/admission_store.go:132-158 | the two-step mint, with a reserved epoch left over if the second write fails |
| `AdmissionStore.AdmissionFile.LoadAdmission` | services/nvpair-cluster-manager/admission_store.go:31-63 | inconsistent files are refused and change nothing; old files get their activation mark |
| `Addresses.SortIsStable` | services/nvpair-cluster-manager/addresses.go:107 | candidates with equal stamps keep their order |
| `Addresses.NormalizeTidies` | services/nvpair-cluster-manager/addresses.go:83-123 | whatever was on disk: at most 7 distinct canonical candidates, newest success first, none expired or from the future; the display address is empty, the pairing address or a proven candidate |
| `Addresses.NormalizeIdempotent` | services/nvpair-cluster-manager/addresses.go:83-123 | normalizing twice at one time is normalizing once |
| `Addresses.LearnTidy` | services/nvpair-cluster-manager/addresses.go:141-201 | learning keeps all of that |
| `Addresses.ReportsOnlyAppend` | services/nvpair-cluster-manager/addresses.go:154-199 | a peer that only reports evicts and reorders nothing, and changes neither what is shown nor the budget |
| `Addresses.ReportKeepsOrderWhen` | services/nvpair-cluster-manager/addresses.go:168-174 | a new report keeps the order exactly when no stored stamp is negative |
| `Addresses.NegativeStampBreaksOrder` | services/nvpair-cluster-manager/addresses.go:83-108 | a stored stamp of -1 for which it does not |
| `AddressRuns.RunTidy` | services/nvpair-cluster-manager/addresses.go:83-201 | the invariant after every step of every run of learn, normalize and limit |
| `AddressRuns.DialBudget` | services/nvpair-cluster-manager/addresses.go:207-254 | two reservations are at least 30 s apart, whatever is claimed in between |
| `AddressRules.NormalizeMeans` | services/nvpair-cluster-manager/addresses.go:83-123 | what is left is the first usable entry of each address, minus what seven more recent successes displace; which address is shown, the pairing address, and the next probe |
| `AddressRules.CleanMeans` | services/nvpair-cluster-manager/addresses.go:93-106 | cleaning keeps exactly the first entry of every address that is canonical and at most 30 days old |
| `AddressRules.LearnMeans` | services/nvpair-cluster-manager/addresses.go:152-199 | the proven endpoints lead, the last one shown; new reports of the first eight get in unproven while there is room; nothing else is added and nothing known dropped unless the list is full |
| `AddressRules.DialsAre` | services/nvpair-cluster-manager/addresses.go:207-254 | exactly the offered endpoints that are proven, the pairing address, or the one reserved hint; a reservation exactly when the budget and an offered hint allow it, and nothing else changes |
| `AddressRules.DialsInOrder` | services/nvpair-cluster-manager/addresses.go:241-254 | they stand in the order first offered |
| `AddressFairness.NoHintStarves` | services/nvpair-cluster-manager/addresses.go:222-240 | between two probes of one hint every other hint that stays stored and offered is probed, unless the record at the first of them says it stood behind |
| `AddressFairness.FairExactlyWhen` | services/nvpair-cluster-manager/addresses.go:222-240 | for any record and any dial that probes u with v on offer: a forward run that probes u again and never v exists if and only if v's stamp is ahead of the clock, or ties with it behind u, and both last until the next probe |
| `AddressFairness.ProbesAreFair` | services/nvpair-cluster-manager/addresses.go:222-240 | if no hint stands behind at the first probe, k consecutive probes among k hints that stay try k different ones |
| `AddressFairness.FutureStampStarves` | services/nvpair-cluster-manager/addresses.go:222-240 | a stamp ahead of the clock: two probes in a row go to the other hint |
| `AddressFairness.TiedStampStarves` | services/nvpair-cluster-manager/addresses.go:227-232 | a stamp equal to the clock, stored second: the same |
| `AddressFairness.RecentStampIsFair` | services/nvpair-cluster-manager/addresses.go:122 | a recent stamp with no probe budget to cover it: the other hint is next |
| `AddressRuns.FilterSound` | services/nvpair-cluster-manager/addresses.go:241-254 | what may be dialled is offered, distinct, at most 8, and proven, the pairing fallback or the reserved hint |
| `AddressRuns.FilterComplete` | services/nvpair-cluster-manager/addresses.go:241-254 | and the cap never cuts such an address |
| `AddressBook.StableSort` | services/nvpair-cluster-manager/addresses.go:107 | an insertion sort gives the sorted list |
| `AddressBook.MemberBook.KeepClean` | services/nvpair-cluster-manager/addresses.go:93-106 | the loop with its seen-map keeps exactly the canonical, unexpired first occurrences |
| `AddressBook.MemberBook.NormalizeAt` | services/nvpair-cluster-manager/addresses.go:83-123 | the member's record becomes the normalized one |
| `AddressBook.MemberBook.Add` | services/nvpair-cluster-manager/addresses.go:154-180 | a claim is appended if new and there is room, a success moves to the front and is shown |
| `AddressBook.MemberBook.LearnFrom` | services/nvpair-cluster-manager/addresses.go:152-199 | the whole update of one exchange |
| `AddressBook.MemberBook.FindProbe` | services/nvpair-cluster-manager/addresses.go:222-234 | the offered unproven hint tried longest ago |
| `AddressBook.MemberBook.LimitDials` | services/nvpair-cluster-manager/addresses.go:207-254 | the endpoints allowed and the one reservation |
| `AddressBook.MemberBook.ReserveDials` | services/nvpair-cluster-manager/addresses.go:256-269 | a reservation that could not be persisted is not dialled |
| `AddressBook.UnpersistedHintIsNotDialled` | services/nvpair-cluster-manager/addresses.go:256-269 | after a failed persist nothing but proven endpoints and the pairing fallback is left |
| `Routing.OwnersSorted` | services/lmstudio-proxy/proxy.go:1700-1743 | exactly the owners of the model, each once, by id |
| `Routing.ResolveSound` | services/lmstudio-proxy/proxy.go:1700-1835 | distinct ids and hosts; every entry an owner reached as itself, under its pin whenever it has one, or in the clear as a manual node without one, and never this proxy; ready before cooling, then selected, scheduler order, id |
| `Routing.ResolveComplete` | services/lmstudio-proxy/proxy.go:1746-1827 | the host of every reachable owner is on the list |
| `Routing.DemotePermutes` | services/lmstudio-proxy/stall.go:80-96 | no candidate is lost or repeated |
| `Routing.DemoteKeepsPairs` | services/lmstudio-proxy/stall.go:80-96 | the partition is stable and puts cooling candidates last |
| `Reservations.SnapshotIsFresh` | services/lmstudio-proxy/proxy.go:2134-2161 | a snapshot drops all reservations, and an id without a rank starts at zero |
| `Reservations.SnapshotTakesLast` | services/lmstudio-proxy/proxy.go:2134-2161 | the last rank of an id sets its load: pending, not negative, plus GPU pressure from 0 to 3 |
| `Reservations.BestIsLeast` | services/lmstudio-proxy/proxy.go:1896-1918 | the scheduler-listed candidate of least load, the first of equals |
| `Reservations.ReservePermutes` | services/lmstudio-proxy/proxy.go:1851-1927 | the list is a permutation: the one reserved in front, the rest in order, or nothing reserved |
| `Reservations.SelectionReservesNothing` | services/lmstudio-proxy/proxy.go:1864-1870 | a selected node among the candidates: counts unchanged and the list only partitioned |
| `Reservations.HintDecidesWhenUsable` | services/lmstudio-proxy/proxy.go:1883-1894 | otherwise a usable affinity hint is reserved and ends in front, and one that is not usable changes nothing |
| `Reservations.ReadyLeastIsReserved` | services/lmstudio-proxy/proxy.go:1851-1927 | without a selection or usable hint, for every set of cooling nodes: a least loaded listed candidate, ready while any is, is counted and put in front; if none is listed, nothing is |
| `Reservations.DispatchToLeast` | services/lmstudio-proxy/proxy.go:1896-1927 | a request without pin or hint goes to a target of least load, whatever cools |
| `Reservations.BurstSpreads` | services/lmstudio-proxy/proxy.go:1851-1927 | over any burst, whatever cools, a target holding a reservation is at most one above every other, and loads grow by exactly the dispatches |
| `Proxy.PruneIsInvisible` | services/lmstudio-proxy/stall.go:62-77 | forgetting run-out cooldowns changes no later answer |
| `Proxy.DemoteCooling` | services/lmstudio-proxy/stall.go:80-96 | the two passes give the stable partition |
| `Proxy.MoveToFront` | services/lmstudio-proxy/proxy.go:1920-1925 | in place: the entry in front, the ones before it shifted by one, the rest untouched |
| `Proxy.Proxy.NoteStalled` | services/lmstudio-proxy/stall.go:47-54 | the node cools for one timeout from now |
| `Proxy.Proxy.NoteSuccess` | services/lmstudio-proxy/stall.go:56-60 | only that node stops cooling |
| `Proxy.Proxy.CoolingSet` | services/lmstudio-proxy/stall.go:62-77 | exactly the nodes still cooling, with the others deleted from the map on the way |
| `Proxy.Proxy.SetPrioritySnapshot` | services/lmstudio-proxy/proxy.go:2134-2161 | the new baseline, no reservations |
| `Proxy.Proxy.FindBest` | services/lmstudio-proxy/proxy.go:1896-1915 | the loop finds the least loaded listed candidate |
| `Proxy.Proxy.Choose` | services/lmstudio-proxy/proxy.go:1857-1918 | a present selection reserves nothing; then an acceptable affinity hint; then the least load |
| `Proxy.Proxy.ReserveCandidate` | services/lmstudio-proxy/proxy.go:1851-1927 | the new counts and the reordered list together |
| `Proxy.Nodes` | services/lmstudio-proxy/discovery.go:87-102 | distinct ids; the subscribed entry of an id wins, and manual ones fill in |
| `Proxy.OwnersOf` | services/lmstudio-proxy/proxy.go:1700-1743 | the loop keeps exactly the owners, in order |
| `Proxy.PlaceAll` | services/lmstudio-proxy/proxy.go:1744-1827 | the placed and seen-host sets give each id and each host once |
| `Proxy.ResolveCandidates` | services/lmstudio-proxy/proxy.go:1700-1835 | the whole resolution computes the list the two theorems are about |
| `Sse.ObserveIsLines` | services/lmstudio-proxy/affinity.go:64-80 | however a body of lines up to 64 KiB is split, the finished lines have been inspected and the last one is held |
| `Sse.InspectMeans` | services/lmstudio-proxy/affinity.go:82-94 | done means the marker was seen; done and valid means it was the last non-blank line and occurred once |
| `Sse.ChunkingDoesNotMatter` | services/lmstudio-proxy/affinity.go:50-94 | at the first end of file a body is complete exactly when its last non-blank line is the DONE marker and it occurs once, for every split |
| `Sse.BufferIsBounded` | services/lmstudio-proxy/affinity.go:64-80 | at most 64 KiB are held between reads, for every body and split |
| `Sse.SecondEof` | services/lmstudio-proxy/affinity.go:55-60 | a second end of file keeps the answer exactly when the held line is blank |
| `Sse.LongLineDependsOnChunking` | services/lmstudio-proxy/affinity.go:68-75 | one body with a blank line past 64 KiB after the marker, two splits: complete and not |
| `SseSplits.AnswersAreExact` | services/lmstudio-proxy/affinity.go:50-94 | for every body, whatever its lines, the answers computed line by line are exactly those some split gives |
| `SseSplits.SplitsAgreeExactlyWhen` | services/lmstudio-proxy/affinity.go:64-80 | every split of a body gives one answer if and only if complete is the only computed answer or none of them |
| `SseSplits.DroppedPrefixMakesMarker` | services/lmstudio-proxy/affinity.go:68-75 | an unfinished stream whose overlong line only ends like the marker counts as complete under one split |
| `Sse.AffinityBodyReader.InspectLine` | services/lmstudio-proxy/affinity.go:82-94 | content after the marker invalidates, blank lines do not |
| `Sse.AffinityBodyReader.ObserveChunk` | services/lmstudio-proxy/affinity.go:64-80 | the loop drains every finished line and drops an overlong rest |
| `Sse.AffinityBodyReader.Read` | services/lmstudio-proxy/affinity.go:50-62 | completion is decided at end of file; a plain body is complete at a clean one |
| `Grouping.EarlierIsLeast` | scripts/collectlogs/entities.go:259-268 | the FirstSeen rule is a symmetric minimum with the header mark first |
| `Grouping.GroupingIsConnectivity` | scripts/collectlogs/entities.go:198-277 | after any calls two identifiers share a group exactly when a chain of calls connects them |
| `Grouping.OwnersAreKnown` | scripts/collectlogs/entities.go:216-234 | exactly the identifiers some call registered have a group |
| `Grouping.ResolveIsRoot` | scripts/collectlogs/types.go:134-140 | following the merge chain ends, and ends in the live group |
| `Grouping.LabelKeyIsLeast` | scripts/collectlogs/entities.go:259-271 | after any calls a group's order and FirstSeen are the least over, and attained by, everything merged into it |
| `Grouping.MergeDirectionIsIrrelevant` | scripts/collectlogs/entities.go:238-277 | which side survives changes none of the three sets nor the label key |
| `GroupContents.GroupHoldsItsKinds` | scripts/collectlogs/entities.go:218-257 | after any calls a live group's hostnames are exactly the names listed as hostnames that it owns; likewise its UUIDs, and its addresses without those in the clear |
| `GroupContents.LabelKeyFromCalls` | scripts/collectlogs/entities.go:108-115 | a group has the FirstSeen of the earliest, and the order of the first, of the calls that founded a part of it |
| `GroupContents.LiveInFoundingOrder` | scripts/collectlogs/entities.go:108-115 | the node list stays in founding order |
| `ClearAddresses.ClearAddressesAreIdleExactlyWhen` | scripts/collectlogs/entities.go:198-235 | for every state and call, linking with the addresses left in the clear and without them puts the same identifiers together if and only if those with an owner are owned by groups the call reaches through what it registers, or by one group if it registers nothing |
| `ClearAddresses.ClearAddressesConnectExactlyWhen` | scripts/collectlogs/entities.go:198-235 | after any calls, the same condition decides whether chains of calls connect the same identifiers with and without the last call's clear addresses |
| `ClearAddresses.NothingTiedExactlyWhen` | scripts/collectlogs/entities.go:225-233 | a run groups, after every call, like the run with no clear address at all if and only if the condition holds at every call |
| `ClearAddresses.LinkRespects` | scripts/collectlogs/entities.go:198-235 | states with the same groups keep the same groups under the same call, whatever the groups' numbers |
| `ClearAddresses.ClearAddressesDoNotLink` | scripts/collectlogs/entities.go:225-233 | the identifiers one call ties together directly are those it registers if and only if every clear address registered before is one of its own names; ties made by earlier calls are not considered |
| `ClearAddresses.PlainAddressesDoNotLink` | scripts/collectlogs/entities.go:225-233 | if no call names such an address, every call ties together exactly what it registers |
| `ClearAddresses.ClearAddressJoins` | scripts/collectlogs/entities.go:204-213 | two calls that share nothing but such an address end in one group, and in two without it |
| `Discovery.Discovery.NewNodeGroup` | scripts/collectlogs/entities.go:108-115 | a fresh group listed last, numbered in creation order |
| `Discovery.Discovery.MergeInto` | scripts/collectlogs/entities.go:238-277 | sets, owners, label key, merge pointer and node list all updated, in place |
| `Discovery.Discovery.FindTarget` | scripts/collectlogs/entities.go:204-213 | every group a member belongs to is merged into the first one found |
| `Discovery.Discovery.ClaimFor` | scripts/collectlogs/entities.go:218-234 | the target lists and owns what the call registers |
| `Discovery.Discovery.LinkIds` | scripts/collectlogs/entities.go:198-235 | one whole link call; a call without members changes nothing |
| `Discovery.Discovery.ResolveNode` | scripts/collectlogs/types.go:134-140 | the pointer loop terminates in the surviving group |

## Left out

- Real hashing, HMAC, ECDH, X.509, base64 and JSON parsing: symbolic functions with the algebraic laws in `Noob.dfy`; texts are assumed to be valid UTF-8, and the JSON number grammar accepted by `WellFormed` is wider than the standard's.
- Errors of the random source and of JSON encoding, SleepTime, ErrorInfo texts, and Export: no part in the protocol properties.
- HTTP, TLS, JSON-RPC notifications, logging, telemetry, mDNS and TCP probing: their answers are arguments.
- The joiner's side and inbound invites of pairing; invite ids (48 random bits) are taken to be fresh, and disjoint from inbound ones.
- Roster merging beyond one entry or one proof at a time: `Admit` and `Gossip` accept any entry that passes the admission checks, without checking endorsement signatures, which allows more than the code does.
- Invite-created solo clusters and their automatic leave, which is a teardown at a moment the model already allows; the self member row; tombstone mirrors for old peers.
- Sessions are compared by pointer in the source; here they are indices into a table that only grows.
- The expiry sweep is one atomic step. In the source a teardown can run between its two parts, since it takes rosterMu and the sweep only inviteMu.
- Calls that record the Noob a side already holds leave it unchanged and are not counted in the key-agreement condition.
- Order and loss of emitted notifications, which happen outside the locks.
- candidateEndpoint and localScope: an abstract canonical form with two laws; reports are taken after scoping.
- Replacing a member's record resets its address book and dial budget; a run of the address model is about one record.
- sort.SliceStable and sort.Slice: an insertion sort with the same result.
- 64-bit overflow of admission values read from a corrupt file: files are taken to hold 64-bit numbers.
- bytes.TrimSpace: an arbitrary function `trim`, so the results hold for every notion of blank.
- The user names of a node group, scanSection's direct writes, entity detection, labelling and rewriting in scripts/collectlogs.
- Model-list merging, request forwarding, retries and stall timers in services/lmstudio-proxy, nodeURL and reachability, which enter as `Env`.
- Cluster.PinPeer: the trust store itself is not part of this model beyond its documented effect on pins and files.
- ClusterSafety.WritesAreLogged: excludes roster merging and startup, whose writes do not belong to outbound pairings.
- ClusterOutcome.TerminalIsFinal: invites are not persisted, so the statement is about one process lifetime.
