/**
 * One server, one peer and an arbitrary network. The network may drop, repeat,
 * reorder and invent messages and call the out-of-band methods with anything; it
 * cannot make a MAC under a key it does not hold. Every step a role takes towards
 * registration is written to a log, and agreement is a property of that log.
 */
module NoobNetwork {
  import opened Options
  import opened Kdf
  import opened Transcript
  import opened Noob
  import opened NoobGuards

  datatype Event =
    | ServerAsked(material: Bytes, ins: MacInputs)   // Completion request with MACs
    | PeerAnswered(material: Bytes, ins: MacInputs)  // MACs verified, MACp sent
    | ServerDone(material: Bytes, ins: MacInputs)    // MACp verified, Registered
    | PeerDone(material: Bytes)                      // EAP-Success accepted, Registered
    | ServerNoob                                     // an out-of-band call recorded a Noob
    | PeerNoob

  datatype World = World(sv: ServerState, pr: PeerState, log: seq<Event>)

  datatype Action =
    | ToServer(w: Wire, f: Fresh)
    | ToPeer(w: Wire, f: Fresh)
    | ServerCalls(c: Call)
    | PeerCalls(c: Call)

  /** Library, configurations, and the keying material the network holds. */
  datatype Setup = Setup(l: Lib, sc: ServerConfig, pc: PeerConfig, known: iset<Bytes>)

  function ServerEvents(s': ServerState, o: Outcome): seq<Event> {
    if s'.m.material.None? then []
    else if Succeeds(o) then [ServerDone(s'.m.material.value, s'.m.ins)]
    else if SendsServerTag(o) then [ServerAsked(s'.m.material.value, s'.m.ins)]
    else []
  }

  function PeerEvents(p': PeerState, o: Outcome): seq<Event> {
    if p'.m.material.None? then []
    else if Succeeds(o) then [PeerDone(p'.m.material.value)]
    else if SendsPeerTag(o) then [PeerAnswered(p'.m.material.value, p'.m.ins)]
    else []
  }

  ghost function Act(u: Setup, w: World, a: Action): World {
    match a
    case ToServer(m, f) =>
      var (s', o) := ServerReceive(u.l, u.sc, w.sv, m, f);
      World(s', w.pr, w.log + ServerEvents(s', o))
    case ToPeer(m, f) =>
      var (p', o) := PeerReceive(u.l, u.pc, w.pr, m, f);
      World(w.sv, p', w.log + PeerEvents(p', o))
    case ServerCalls(c) =>
      var s' := if c.Message? then w.sv else ServerCall(u.l, u.sc, w.sv, c);
      World(s', w.pr, w.log + if s' != w.sv then [ServerNoob] else [])
    case PeerCalls(c) =>
      var p' := if c.Message? then w.pr else PeerCall(u.l, u.pc, w.pr, c);
      World(w.sv, p', w.log + if p' != w.pr then [PeerNoob] else [])
  }

  ghost function Exec(u: Setup, run: seq<Action>): World {
    if run == [] then World(NEW_SERVER, NewPeer(u.pc), [])
    else Act(u, Exec(u, run[..|run| - 1]), run[|run| - 1])
  }

  /** The tag an honest role put on the network in this step. */
  ghost predicate Produces(l: Lib, e: Event, t: Tag) {
    (e.ServerAsked? && t == ServerTag(l, e.material, e.ins)) || (e.PeerAnswered? && t == PeerTag(l, e.material, e.ins))
  }

  ghost predicate Produced(l: Lib, log: seq<Event>, t: Tag) {
    exists i | 0 <= i < |log| :: Produces(l, log[i], t)
  }

  /** Ideal MACs: a tag in transit was made by a role or under material the network holds. */
  ghost predicate TagOk(u: Setup, log: seq<Event>, t: Option<Tag>) {
    t.None? || t.value.key.material in u.known || Produced(u.l, log, t.value)
  }

  /** A decoded field: absent, or one JSON value. */
  predicate Decoded(l: Lib, t: string) {
    t == "" || l.valid(t)
  }

  predicate WireOk(l: Lib, w: Wire) {
    w.Wire? ==>
      && Decoded(l, w.peerId) && Decoded(l, w.vers) && Decoded(l, w.verp) && Decoded(l, w.suites)
      && Decoded(l, w.suitep) && Decoded(l, w.dirs)
      && Decoded(l, w.dirp) && Decoded(l, w.serverInfo) && Decoded(l, w.peerInfo)
      && Decoded(l, w.pks) && Decoded(l, w.pkp) && Decoded(l, w.ns) && Decoded(l, w.np)
  }

  ghost predicate Deliverable(u: Setup, log: seq<Event>, a: Action) {
    (a.ToServer? || a.ToPeer?)
      ==> WireOk(u.l, a.w) && (a.w.Wire? ==> TagOk(u, log, a.w.macs) && TagOk(u, log, a.w.macp))
  }

  ghost predicate Admissible(u: Setup, run: seq<Action>) {
    run == [] || (Admissible(u, run[..|run| - 1]) && Deliverable(u, Exec(u, run[..|run| - 1]).log, run[|run| - 1]))
  }

  // ---- A network that names no NoobId of its own ----

  function IdIn(o: Outcome): set<NoobId> {
    var names := o.Outcome? && o.send.Some? && o.send.value.Wire? && o.send.value.noobId.Some?;
    if names then {o.send.value.noobId.value} else {}
  }

  /** The NoobIds the roles have put on the network. */
  ghost function SentIds(u: Setup, run: seq<Action>): set<NoobId> {
    if run == [] then {}
    else SentIds(u, run[..|run| - 1]) + SentIn(u, Exec(u, run[..|run| - 1]), run[|run| - 1])
  }

  ghost function SentIn(u: Setup, w: World, a: Action): set<NoobId> {
    match a
    case ToServer(m, f) => IdIn(ServerReceive(u.l, u.sc, w.sv, m, f).1)
    case ToPeer(m, f) => IdIn(PeerReceive(u.l, u.pc, w.pr, m, f).1)
    case _ => {}
  }

  predicate Repeats(ids: set<NoobId>, a: Action) {
    (a.ToServer? || a.ToPeer?) && a.w.Wire? && a.w.noobId.Some? ==> a.w.noobId.value in ids
  }

  /** Every NoobId delivered was sent by a role before. */
  ghost predicate QuotesOnly(u: Setup, run: seq<Action>) {
    run == [] || (QuotesOnly(u, run[..|run| - 1]) && Repeats(SentIds(u, run[..|run| - 1]), run[|run| - 1]))
  }

  ghost predicate LibOk(u: Setup) {
    ScalarLaws(u.l) && DhLaws(u.l) && Decoded(u.l, u.sc.info) && Decoded(u.l, u.pc.info)
  }

  ghost predicate SetupOk(u: Setup) {
    && ValidLaw(u.l) && LibOk(u)
  }

  // ---- Transcripts are complete where a MAC covers them ----

  predicate OfferUnset(i: MacInputs) {
    i.vers == "" && i.peerId == "" && i.suites == "" && i.dirs == "" && i.serverInfo == ""
  }

  predicate OfferSet(l: Lib, i: MacInputs) {
    l.valid(i.vers) && l.valid(i.peerId) && l.valid(i.suites) && l.valid(i.dirs) && l.valid(i.serverInfo)
  }

  predicate SelectionSet(l: Lib, i: MacInputs) {
    l.valid(i.verp) && l.valid(i.suitep) && l.valid(i.dirp) && l.valid(i.nai) && l.valid(i.peerInfo)
  }

  predicate ServerFields(l: Lib, m: Method) {
    && (OfferUnset(m.ins) || OfferSet(l, m.ins))
    && (m.suite.Some? ==> SelectionSet(l, m.ins) && l.valid(m.ins.pks) && l.valid(m.ins.ns))
    && (m.z.Some? ==> l.valid(m.ins.pkp) && l.valid(m.ins.np))
    && (m.noob != [] ==> m.ins.noob == NoobText(l, m.noob))
  }

  predicate PeerFields(l: Lib, m: Method) {
    && (m.suite.Some? ==> OfferSet(l, m.ins) && l.toInts(m.ins.vers).Some? && SelectionSet(l, m.ins))
    && (m.z.Some? ==> l.valid(m.ins.pks) && l.valid(m.ins.ns) && l.valid(m.ins.pkp) && l.valid(m.ins.np))
    && (m.noob != [] ==> m.ins.noob == NoobText(l, m.noob))
  }

  predicate KeysSet(l: Lib, i: MacInputs) {
    l.valid(i.pks) && l.valid(i.ns) && l.valid(i.pkp) && l.valid(i.np) && l.valid(i.noob)
  }

  predicate ServerReady(l: Lib, i: MacInputs) {
    (OfferUnset(i) || OfferSet(l, i)) && SelectionSet(l, i) && KeysSet(l, i)
  }

  predicate PeerReady(l: Lib, i: MacInputs) {
    OfferSet(l, i) && l.toInts(i.vers).Some? && SelectionSet(l, i) && KeysSet(l, i)
  }

  lemma FieldsFix(l: Lib, lead: int, i: MacInputs, j: MacInputs)
    requires Fields(l, lead, i) == Fields(l, lead, j)
    ensures i == j
  {
    var a, b := Fields(l, lead, i), Fields(l, lead, j);
    assert a[1] == b[1] && a[2] == b[2] && a[3] == b[3] && a[4] == b[4] && a[5] == b[5];
    assert a[6] == b[6] && a[7] == b[7] && a[8] == b[8] && a[9] == b[9] && a[10] == b[10];
    assert a[12] == b[12] && a[13] == b[13] && a[14] == b[14] && a[15] == b[15] && a[16] == b[16];
  }

  lemma FieldsReady(l: Lib, lead: int, i: MacInputs)
    requires ValidLaw(l) && ScalarLaws(l) && ServerReady(l, i)
    ensures forall k | 0 <= k < 17 :: Field(Fields(l, lead, i)[k])
  {
    FieldsDecoded(l, lead, i);
    var a := Fields(l, lead, i);
    forall k | 0 <= k < 17 ensures Field(a[k]) {
      assert Decoded(l, a[k]);
    }
  }

  lemma FieldsComplete(l: Lib, lead: int, i: MacInputs)
    requires ValidLaw(l) && ScalarLaws(l) && ServerReady(l, i) && OfferSet(l, i)
    ensures forall k | 0 <= k < 17 :: WellFormed(Fields(l, lead, i)[k])
  {
    FieldsDecoded(l, lead, i);
    var a := Fields(l, lead, i);
    forall k | 0 <= k < 17 ensures WellFormed(a[k]) {
      assert l.valid(a[k]);
    }
  }

  lemma FieldsDecoded(l: Lib, lead: int, i: MacInputs)
    requires ScalarLaws(l) && ServerReady(l, i)
    ensures forall k | 0 <= k < 17 :: Decoded(l, Fields(l, lead, i)[k])
    ensures OfferSet(l, i) ==> forall k | 0 <= k < 17 :: l.valid(Fields(l, lead, i)[k])
  {
    var zero := 0;
    assert l.valid(l.rawInt(lead)) && l.valid(l.rawInt(zero));
  }

  /** The peer's version list is an array, so the server's entry is one too, and its offer is there. */
  lemma OfferIsThere(l: Lib, lead: int, i: MacInputs, j: MacInputs)
    requires ValidLaw(l) && ScalarLaws(l) && ServerReady(l, i) && PeerReady(l, j)
    requires NoobArray(l, lead, i) == NoobArray(l, lead, j)
    ensures OfferSet(l, i)
  {
    var a, b := Fields(l, lead, i), Fields(l, lead, j);
    FieldsReady(l, lead, i);
    FieldsReady(l, lead, j);
    ArrayInjective(a, b);
    assert Entry(a[1]) == Entry(b[1]);
    SameVersions(l, i, j);
  }

  lemma SameVersions(l: Lib, i: MacInputs, j: MacInputs)
    requires ValidLaw(l) && ScalarLaws(l) && ServerReady(l, i) && PeerReady(l, j) && Entry(i.vers) == Entry(j.vers)
    ensures OfferSet(l, i)
  {
    NonEmpty(j.vers);
  }

  /** Equal MAC inputs of a server and a peer mean equal transcripts, field by field. */
  lemma SameInputs(l: Lib, lead: int, i: MacInputs, j: MacInputs)
    requires ValidLaw(l) && ScalarLaws(l) && ServerReady(l, i) && PeerReady(l, j)
    requires NoobArray(l, lead, i) == NoobArray(l, lead, j)
    ensures i == j
  {
    OfferIsThere(l, lead, i, j);
    FieldsComplete(l, lead, i);
    FieldsComplete(l, lead, j);
    VerbatimInjective(Fields(l, lead, i), Fields(l, lead, j));
    FieldsFix(l, lead, i, j);
  }

  lemma OnDiscoveryFields(u: Setup, s: ServerState, w: Wire, f: Fresh)
    requires LibOk(u) && w.Wire? && ServerFields(u.l, s.m)
    ensures ServerFields(u.l, OnDiscovery(u.l, u.sc, s, w, f).0.m)
  {
    if w.peerState.Some? {
      DispatchFields(u, Heard(u.l, s, w), w, f);
    }
  }

  lemma DispatchFields(u: Setup, s: ServerState, w: Wire, f: Fresh)
    requires LibOk(u) && w.Wire? && ServerFields(u.l, s.m)
    ensures ServerFields(u.l, Dispatch(u.l, u.sc, s, w, f).0.m)
  {
    NegotiationRequestFields(u, s, f);
    StartCompletionFields(u, s, w);
  }

  lemma StartCompletionFields(u: Setup, s: ServerState, w: Wire)
    requires w.Wire? && ServerFields(u.l, s.m)
    ensures ServerFields(u.l, StartCompletion(u.l, s, w).0.m)
  {
  }

  lemma NegotiationRequestFields(u: Setup, s: ServerState, f: Fresh)
    requires LibOk(u) && ServerFields(u.l, s.m)
    ensures ServerFields(u.l, NegotiationRequest(u.l, u.sc, s, f).0.m)
  {
  }

  lemma OnNegotiationFields(u: Setup, s: ServerState, w: Wire, f: Fresh)
    requires LibOk(u) && w.Wire? && WireOk(u.l, w) && ServerFields(u.l, s.m)
    ensures ServerFields(u.l, OnNegotiation(u.l, u.sc, s, w, f).0.m)
  {
  }

  lemma OnKeyExchangeFields(u: Setup, s: ServerState, w: Wire)
    requires LibOk(u) && w.Wire? && WireOk(u.l, w) && ServerFields(u.l, s.m)
    ensures ServerFields(u.l, OnKeyExchange(u.l, s, w).0.m)
  {
    if s.m.suite.Some? && s.m.priv.Some? {
      var cs, a := s.m.suite.value, s.m.priv.value;
      assert u.l.dh(cs, a, "") == None;
    }
  }

  lemma OnCompletionFields(u: Setup, s: ServerState, w: Wire, f: Fresh)
    requires w.Wire? && ServerFields(u.l, s.m)
    ensures ServerFields(u.l, OnNoobId(u.l, s, w).0.m) && ServerFields(u.l, OnCompletion(u.l, s, w, f).0.m)
  {
  }

  lemma ServerFieldsKept(u: Setup, s: ServerState, w: Wire, f: Fresh)
    requires LibOk(u) && WireOk(u.l, w) && ServerFields(u.l, s.m)
    ensures ServerFields(u.l, ServerReceive(u.l, u.sc, s, w, f).0.m)
  {
    if w.Wire? && w.error.None? && w.typ.Some? {
      match w.typ.value
      case 1 => OnDiscoveryFields(u, s, w, f);
      case 2 => OnNegotiationFields(u, s, w, f);
      case 3 => OnKeyExchangeFields(u, s, w);
      case 5 => OnCompletionFields(u, s, w, f);
      case 6 => OnCompletionFields(u, s, w, f);
      case _ =>
    }
  }

  lemma OnNegotiationRequestFields(u: Setup, p: PeerState, w: Wire)
    requires LibOk(u) && w.Wire? && WireOk(u.l, w) && PeerFields(u.l, p.m)
    ensures PeerFields(u.l, OnNegotiationRequest(u.l, u.pc, p, w).0.m)
  {
    if u.l.toStr(w.peerId).Some? && OfferError(u.l, u.pc, w) == 0 {
      SelectFields(u, p.(m := p.m.(peerId := u.l.toStr(w.peerId).value)), w, Choice(u.l, u.pc, w));
    }
  }

  lemma SelectFields(u: Setup, p: PeerState, w: Wire, c: (int, int, int))
    requires LibOk(u) && w.Wire? && WireOk(u.l, w) && PeerFields(u.l, p.m)
    requires u.l.toInts(w.vers).Some? && u.l.toInts(w.suites).Some? && u.l.toInt(w.dirs).Some?
    requires u.l.toStr(w.peerId).Some?
    ensures PeerFields(u.l, Select(u.l, u.pc, p, w, c).0.m)
  {
  }

  lemma OnKeyExchangeRequestFields(u: Setup, p: PeerState, w: Wire, f: Fresh)
    requires LibOk(u) && w.Wire? && WireOk(u.l, w) && PeerFields(u.l, p.m)
    ensures PeerFields(u.l, OnKeyExchangeRequest(u.l, p, w, f).0.m)
  {
    if p.m.suite.Some? {
      var cs := p.m.suite.value;
      assert u.l.dh(cs, f.priv, "") == None;
    }
  }

  lemma OnCompletionRequestFields(u: Setup, p: PeerState, w: Wire, f: Fresh)
    requires w.Wire? && PeerFields(u.l, p.m)
    ensures PeerFields(u.l, OnCompletionRequest(u.l, p, w).0.m) && PeerFields(u.l, OnResult(p, w, f).0.m)
  {
  }

  lemma PeerFieldsKept(u: Setup, p: PeerState, w: Wire, f: Fresh)
    requires LibOk(u) && WireOk(u.l, w) && PeerFields(u.l, p.m)
    ensures PeerFields(u.l, PeerReceive(u.l, u.pc, p, w, f).0.m)
  {
    var p1 := p.(verified := false);
    if w.Malformed? {
    } else if w.eap != "" {
      OnCompletionRequestFields(u, p, w, f);
    } else if w.error.None? && w.typ.Some? {
      match w.typ.value
      case 2 => OnNegotiationRequestFields(u, p1, w);
      case 3 => OnKeyExchangeRequestFields(u, p1, w, f);
      case 6 => OnCompletionRequestFields(u, p1, w, f);
      case _ =>
    }
  }
}
