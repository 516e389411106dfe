/**
 * EAP-NOOB (RFC 9140) as services/eap-noob implements it: the state both roles
 * share, their messages, and the two message-driven state machines as functions
 * from a state and an input to the next state and an outcome. The classes in
 * NoobServer.dfy and NoobPeer.dfy are proved against these functions.
 *
 * Cryptography is symbolic. A key is a label on the KDF input it is a hash block
 * of, a tag names the key and the exact bytes it authenticates, and NoobId and
 * Hoob name the bytes they fingerprint.
 */
module Noob {
  import opened Options
  import opened Kdf
  import opened Transcript

  // ---- States and error codes ----

  const UNREGISTERED := 0
  const WAITING := 1
  const OOB_RECEIVED := 2
  const REGISTERED := 4

  const ERR_STRUCTURE := 1002
  const ERR_DATA := 1003
  const ERR_TYPE := 1004
  const ERR_PEER_ID := 2001
  const ERR_STATE := 2002
  const ERR_OOB_ID := 2003
  const ERR_VERSION := 3001
  const ERR_SUITE := 3002
  const ERR_DIRECTION := 3003
  const ERR_HMAC := 4001

  const DEFAULT_NAI := "noob@eap-noob.arpa"
  const EAP_SUCCESS := "success"
  const EAP_FAILURE := "failure"

  // ---- Symbolic cryptography ----

  datatype Label = Kms | Kmp | Kz

  datatype Key = Key(use: Label, material: Bytes)

  datatype Tag = Tag(key: Key, data: string)

  datatype NoobId = NoobId(data: string)

  datatype Hoob = Hoob(data: string)

  /**
   * The library routines around the protocol: JSON validity and scalars, base64url,
   * JWK texts and ECDH. Private keys are named by numbers; `jwk(s, a)` is the text of the
   * public key of `a` in suite `s`, and `dh` is decoding followed by ECDH.
   */
  datatype Lib = Lib(
    valid: string -> bool,
    rawInt: int -> string, toInt: string -> Option<int>,
    rawInts: seq<int> -> string, toInts: string -> Option<seq<int>>,
    rawStr: string -> string, toStr: string -> Option<string>,
    b64: Bytes -> string, unb64: string -> Option<Bytes>,
    jwk: (int, int) -> string, dh: (int, int, string) -> Option<Bytes>)

  ghost predicate ValidLaw(l: Lib) {
    forall t :: l.valid(t) <==> WellFormed(t)
  }

  ghost predicate ScalarLaws(l: Lib) {
    && !l.valid("") && l.valid("{}")
    && (forall i :: l.toInt(l.rawInt(i)) == Some(i) && l.valid(l.rawInt(i)))
    && (forall v :: l.toInts(l.rawInts(v)) == Some(v) && l.valid(l.rawInts(v)))
    && (forall s :: l.toStr(l.rawStr(s)) == Some(s) && l.valid(l.rawStr(s)))
    && l.toInt("") == None && l.toInts("") == None && l.toStr("") == None
    && l.toInts("\"\"") == None // a string is not an array
    && (forall b :: l.unb64(l.b64(b)) == Some(b))
  }

  ghost predicate DhLaws(l: Lib) {
    && (forall s, a :: l.valid(l.jwk(s, a)))
    && (forall s, a :: l.dh(s, a, "") == None)
    && (forall s, a, b :: l.dh(s, a, l.jwk(s, b)) == l.dh(s, b, l.jwk(s, a)))
    && (forall s, a, b :: l.dh(s, a, l.jwk(s, b)).Some?)
  }

  // ---- Transcript and method state ----

  /** Verbatim texts; "" is an absent field. */
  datatype MacInputs = MacInputs(
    vers: string, verp: string, peerId: string, suites: string, dirs: string, serverInfo: string,
    suitep: string, dirp: string, nai: string, peerInfo: string,
    pks: string, ns: string, pkp: string, np: string, noob: string)

  const NO_INPUTS := MacInputs("", "", "", "", "", "", "", "", "", "", "", "", "", "", "")

  function Fields(l: Lib, lead: int, i: MacInputs): seq<string> {
    [l.rawInt(lead), i.vers, i.verp, i.peerId, i.suites, i.dirs, i.serverInfo, i.suitep, i.dirp, i.nai, i.peerInfo,
     l.rawInt(0), i.pks, i.ns, i.pkp, i.np, i.noob]
  }

  function NoobArray(l: Lib, lead: int, i: MacInputs): string {
    ArrayText(Fields(l, lead, i))
  }

  function ComputeHoob(l: Lib, dir: int, i: MacInputs): Hoob {
    Hoob(NoobArray(l, dir, i))
  }

  function ComputeNoobId(l: Lib, noobText: string): NoobId {
    NoobId(ArrayText([l.rawStr("NoobId"), noobText]))
  }

  function ServerTag(l: Lib, material: Bytes, i: MacInputs): Tag {
    Tag(Key(Kms, material), NoobArray(l, 2, i))
  }

  function PeerTag(l: Lib, material: Bytes, i: MacInputs): Tag {
    Tag(Key(Kmp, material), NoobArray(l, 1, i))
  }

  datatype Association = Association(peerId: string, nai: string, suite: int, kz: Key)

  /** methodState: everything both roles keep for one method execution. */
  datatype Method = Method(
    suite: Option<int>, peerId: string, nai: string, ins: MacInputs,
    priv: Option<int>, z: Option<Bytes>, ns: Bytes, np: Bytes,
    noob: Bytes, noobId: Option<NoobId>, material: Option<Bytes>, registered: Option<Association>)

  const NEW_METHOD := Method(None, "", "", NO_INPUTS, None, None, [], [], [], None, None, None)

  function NoobText(l: Lib, noob: Bytes): string {
    l.rawStr(l.b64(noob))
  }

  function SetNoob(l: Lib, m: Method, noob: Bytes): Method {
    m.(noob := noob, ins := m.ins.(noob := NoobText(l, noob)), noobId := Some(ComputeNoobId(l, NoobText(l, noob))))
  }

  function Material(m: Method): Bytes {
    (if m.z.Some? then m.z.value else []) + FixedInfo(m.np, m.ns, m.noob)
  }

  function DeriveKeys(m: Method): Method {
    m.(material := Some(Material(m)))
  }

  // ---- Messages ----

  datatype Wire =
    | Malformed
    | Wire(typ: Option<int>, peerState: Option<int>, peerId: string, nai: string, newNai: string,
           vers: string, verp: string, suites: string, suitep: string, dirs: string, dirp: string,
           serverInfo: string, peerInfo: string, pks: string, pkp: string, ns: string, np: string,
           noobId: Option<NoobId>, macs: Option<Tag>, macp: Option<Tag>, error: Option<int>, eap: string)

  const EMPTY :=
    Wire(None, None, "", "", "", "", "", "", "", "", "", "", "", "", "", "", "", None, None, None, None, "")

  function Result(kind: string): Wire {
    EMPTY.(eap := kind)
  }

  datatype OobMessage = OobMessage(peerId: string, noob: string, hoob: Hoob)

  /** What a call reports; `Fault` is a Go error (the association store failed). */
  datatype Outcome =
    | Fault
    | Outcome(send: Option<Wire>, state: int, done: bool, success: bool, err: Option<int>)

  function Sent(w: Wire, state: int): Outcome {
    Outcome(Some(w), state, false, false, None)
  }

  function Failed(code: int, state: int): Outcome {
    Outcome(Some(EMPTY.(typ := Some(0), error := Some(code))), state, true, false, Some(code))
  }

  /** Fresh randomness and the store's answer for one call. */
  datatype Fresh = Fresh(peerId: string, priv: int, nonce: Bytes, saved: bool)

  // ---- Configuration ----

  datatype ServerConfig = ServerConfig(versions: seq<int>, suites: seq<int>, dirs: int, info: string, newNai: string)

  datatype PeerConfig = PeerConfig(nai: string, versions: seq<int>, suites: seq<int>, preferDir: int, info: string)

  function ServerDefaults(c: ServerConfig): ServerConfig {
    c.(versions := if c.versions == [] then [1] else c.versions,
       suites := if c.suites == [] then [2, 1] else c.suites,
       dirs := if c.dirs == 0 then 3 else c.dirs)
  }

  function PeerDefaults(c: PeerConfig): PeerConfig {
    c.(nai := if c.nai == "" then DEFAULT_NAI else c.nai,
       versions := if c.versions == [] then [1] else c.versions,
       suites := if c.suites == [] then [1, 2] else c.suites)
  }

  /** marshalInfo and ensureRaw: an absent object is the empty object. */
  function InfoText(info: string): string {
    if info == "" then "{}" else info
  }

  predicate SupportedSuite(id: int) {
    id == 1 || id == 2
  }

  /** Go's `a & b != 0` for a in 1..3. */
  predicate SharesDirection(a: int, b: int)
    requires 1 <= a <= 3
  {
    (a % 2 == 1 && b % 2 == 1) || (a / 2 == 1 && b / 2 % 2 == 1)
  }

  // ---- Negotiation helpers ----

  function BestVersion(server: seq<int>, peer: seq<int>): Option<int> {
    if server == [] then None
    else
      var best := BestVersion(server[..|server| - 1], peer);
      var v := server[|server| - 1];
      if v in peer && v >= (if best.Some? then best.value else 0) then Some(v) else best
  }

  /** The peer's choice is the greatest non-negative version both sides list. */
  lemma {:induction false} BestVersionIsGreatest(server: seq<int>, peer: seq<int>)
    ensures match BestVersion(server, peer)
            case Some(v) => 0 <= v && v in server && v in peer && forall w | w in server && w in peer :: w <= v
            case None => forall w | w in server && w in peer :: w < 0
  {
    if server != [] {
      var init, v := server[..|server| - 1], server[|server| - 1];
      BestVersionIsGreatest(init, peer);
      assert server == init + [v];
    }
  }

  function FirstSupported(server: seq<int>, peer: seq<int>): Option<int> {
    if server == [] then None
    else if server[0] in peer && SupportedSuite(server[0]) then Some(server[0])
    else FirstSupported(server[1..], peer)
  }

  /** The server's order of preference decides, among suites both sides can run. */
  lemma {:induction false} FirstSupportedIsFirst(server: seq<int>, peer: seq<int>)
    ensures match FirstSupported(server, peer)
            case Some(c) =>
              exists k | 0 <= k < |server| ::
                && server[k] == c && c in peer && SupportedSuite(c)
                && forall i | 0 <= i < k :: !(server[i] in peer && SupportedSuite(server[i]))
            case None => forall c | c in server && c in peer :: !SupportedSuite(c)
  {
    if server != [] && !(server[0] in peer && SupportedSuite(server[0])) {
      FirstSupportedIsFirst(server[1..], peer);
      assert server == [server[0]] + server[1..];
      if FirstSupported(server, peer).Some? {
        var c := FirstSupported(server, peer).value;
        var k :| 0 <= k < |server[1..]| && server[1..][k] == c && c in peer && SupportedSuite(c)
          && forall i | 0 <= i < k :: !(server[1..][i] in peer && SupportedSuite(server[1..][i]));
        assert server[k + 1] == c;
        forall i | 0 <= i < k + 1 ensures !(server[i] in peer && SupportedSuite(server[i])) {
          if i > 0 { assert server[i] == server[1..][i - 1]; }
        }
      }
    }
  }

  function ChooseDir(serverDirs: int, prefer: int): Option<int> {
    match serverDirs
    case 1 => Some(1)
    case 2 => Some(2)
    case 3 => if prefer == 1 || prefer == 2 then Some(prefer) else Some(2)
    case _ => None
  }

  method BestVersionLoop(server: seq<int>, peer: seq<int>) returns (best: int, ok: bool)
    ensures BestVersion(server, peer) == if ok then Some(best) else None
  {
    best, ok := 0, false;
    for i := 0 to |server|
      invariant BestVersion(server[..i], peer) == if ok then Some(best) else None
      invariant ok || best == 0
    {
      assert server[..i + 1][..i] == server[..i];
      if server[i] in peer && server[i] >= best {
        best, ok := server[i], true;
      }
    }
    assert server[..|server|] == server;
  }

  method FirstSupportedLoop(server: seq<int>, peer: seq<int>) returns (c: int, ok: bool)
    ensures FirstSupported(server, peer) == if ok then Some(c) else None
  {
    for i := 0 to |server|
      invariant FirstSupported(server, peer) == FirstSupported(server[i..], peer)
    {
      if server[i] in peer && SupportedSuite(server[i]) {
        return server[i], true;
      }
      assert server[i..][1..] == server[i + 1..];
    }
    return 0, false;
  }

  // ---- Server ----

  datatype ServerState = ServerState(state: int, peerState: int, verp: int, csp: int, dirp: int, m: Method)

  const NEW_SERVER := ServerState(UNREGISTERED, 0, 0, 0, 0, NEW_METHOD)

  predicate PeerIdMatches(l: Lib, m: Method, w: Wire)
    requires w.Wire?
  {
    m.peerId == "" || l.toStr(w.peerId) == Some(m.peerId)
  }

  function ServerFail(s: ServerState, code: int): (ServerState, Outcome) {
    (s, Failed(code, s.state))
  }

  function ServerReceive(l: Lib, cfg: ServerConfig, s: ServerState, w: Wire, f: Fresh): (ServerState, Outcome) {
    if w.Malformed? then ServerFail(s, ERR_STRUCTURE)
    else if w.error.Some? then (s, Outcome(None, s.state, true, false, w.error))
    else if w.typ.None? then ServerFail(s, ERR_STRUCTURE)
    else match w.typ.value
      case 1 => OnDiscovery(l, cfg, s, w, f)
      case 2 => OnNegotiation(l, cfg, s, w, f)
      case 3 => OnKeyExchange(l, s, w)
      case 4 => if !PeerIdMatches(l, s.m, w) then ServerFail(s, ERR_PEER_ID)
                else (s, Outcome(Some(Result(EAP_FAILURE)), s.state, true, false, None))
      case 5 => OnNoobId(l, s, w)
      case 6 => OnCompletion(l, s, w, f)
      case _ => ServerFail(s, ERR_TYPE)
  }

  /** A discovery response updates the reported peer state and the identity. */
  function Heard(l: Lib, s: ServerState, w: Wire): ServerState
    requires w.Wire? && w.peerState.Some?
  {
    var nai := if w.nai != "" && l.toStr(w.nai).Some? then l.toStr(w.nai).value else s.m.nai;
    s.(peerState := w.peerState.value, m := s.m.(nai := if nai == "" then DEFAULT_NAI else nai))
  }

  function OnDiscovery(l: Lib, cfg: ServerConfig, s: ServerState, w: Wire, f: Fresh): (ServerState, Outcome)
    requires w.Wire?
  {
    if w.peerState.None? then ServerFail(s, ERR_DATA) else Dispatch(l, cfg, Heard(l, s, w), w, f)
  }

  /** Which exchange the two states call for. */
  function Dispatch(l: Lib, cfg: ServerConfig, s: ServerState, w: Wire, f: Fresh): (ServerState, Outcome)
    requires w.Wire?
  {
    var ss, ps := s.state, s.peerState;
    if (ss == 2 && (ps == 1 || ps == 2)) || (ps == 2 && (ss == 1 || ss == 2)) then StartCompletion(l, s, w)
    else if ss == 1 && ps == 1 then (s, Sent(EMPTY.(typ := Some(4), peerId := l.rawStr(s.m.peerId)), s.state))
    else if ss == 0 || ps == 0 then NegotiationRequest(l, cfg, s, f)
    else ServerFail(s, ERR_STATE)
  }

  function NegotiationRequest(l: Lib, cfg: ServerConfig, s: ServerState, f: Fresh): (ServerState, Outcome) {
    var id := l.rawStr(f.peerId);
    var ins := s.m.ins.(vers := l.rawInts(cfg.versions), peerId := id, suites := l.rawInts(cfg.suites),
                        dirs := l.rawInt(cfg.dirs), serverInfo := InfoText(cfg.info));
    var w := EMPTY.(typ := Some(2), vers := ins.vers, peerId := id, suites := ins.suites, dirs := ins.dirs,
                    serverInfo := ins.serverInfo,
                        newNai := if cfg.newNai != "" then l.rawStr(cfg.newNai) else "");
    (s.(m := s.m.(peerId := f.peerId, ins := ins, nai := if cfg.newNai != "" then cfg.newNai else s.m.nai)),
     Sent(w, s.state))
  }

  /** Zero when the peer's selection is acceptable, otherwise the error code. */
  function SelectionError(l: Lib, cfg: ServerConfig, w: Wire): int
    requires w.Wire?
  {
    var verp, csp, dirp := l.toInt(w.verp), l.toInt(w.suitep), l.toInt(w.dirp);
    if verp.None? then ERR_DATA
    else if verp.value !in cfg.versions then ERR_VERSION
    else if csp.None? then ERR_DATA
    else if csp.value !in cfg.suites || !SupportedSuite(csp.value) then ERR_SUITE
    else if dirp.None? then ERR_DATA
    else if !(1 <= dirp.value <= 3) || !SharesDirection(dirp.value, cfg.dirs) then ERR_DIRECTION
    else 0
  }

  function OnNegotiation(l: Lib, cfg: ServerConfig, s: ServerState, w: Wire, f: Fresh): (ServerState, Outcome)
    requires w.Wire?
  {
    if !PeerIdMatches(l, s.m, w) then ServerFail(s, ERR_PEER_ID)
    else if SelectionError(l, cfg, w) != 0 then ServerFail(s, SelectionError(l, cfg, w))
    else
      var csp := l.toInt(w.suitep).value;
      var pks, ns := l.jwk(csp, f.priv), l.rawStr(l.b64(f.nonce));
      var ins := s.m.ins.(verp := w.verp, suitep := w.suitep, dirp := w.dirp, peerInfo := InfoText(w.peerInfo),
                          nai := l.rawStr(s.m.nai), pks := pks, ns := ns);
      (s.(verp := l.toInt(w.verp).value, csp := csp, dirp := l.toInt(w.dirp).value,
          m := s.m.(suite := Some(csp), ins := ins, priv := Some(f.priv), ns := f.nonce)),
       Sent(EMPTY.(typ := Some(3), peerId := l.rawStr(s.m.peerId), pks := pks, ns := ns), s.state))
  }

  /** A nonce field: a JSON string holding base64url. */
  function NonceOf(l: Lib, text: string): Option<Bytes> {
    if l.toStr(text).Some? then l.unb64(l.toStr(text).value) else None
  }

  function OnKeyExchange(l: Lib, s: ServerState, w: Wire): (ServerState, Outcome)
    requires w.Wire?
  {
    if s.state != UNREGISTERED || s.m.suite.None? || s.m.priv.None? then ServerFail(s, ERR_STATE)
    else if !PeerIdMatches(l, s.m, w) then ServerFail(s, ERR_PEER_ID)
    else
      var z, np := l.dh(s.m.suite.value, s.m.priv.value, w.pkp), NonceOf(l, w.np);
      if z.None? || np.None? then ServerFail(s, ERR_DATA)
      else
        (s.(state := WAITING, m := s.m.(z := z, np := np.value, ins := s.m.ins.(pkp := w.pkp, np := w.np))),
         Outcome(Some(Result(EAP_FAILURE)), WAITING, true, false, None))
  }

  function StartCompletion(l: Lib, s: ServerState, w: Wire): (ServerState, Outcome)
    requires w.Wire?
  {
    if !PeerIdMatches(l, s.m, w) then ServerFail(s, ERR_PEER_ID)
    else if s.m.noob == [] then ServerFail(s, ERR_STATE)
    else if s.peerState == 2 then (s, Sent(EMPTY.(typ := Some(5), peerId := l.rawStr(s.m.peerId)), s.state))
    else CompletionRequest(l, s)
  }

  function OnNoobId(l: Lib, s: ServerState, w: Wire): (ServerState, Outcome)
    requires w.Wire?
  {
    if !PeerIdMatches(l, s.m, w) then ServerFail(s, ERR_PEER_ID)
    else if w.noobId.None? then ServerFail(s, ERR_DATA)
    else if w.noobId != s.m.noobId then ServerFail(s, ERR_OOB_ID)
    else CompletionRequest(l, s)
  }

  function CompletionRequest(l: Lib, s: ServerState): (ServerState, Outcome) {
    var m := DeriveKeys(s.m);
    var w := EMPTY.(typ := Some(6), peerId := l.rawStr(m.peerId), noobId := m.noobId,
                    macs := Some(ServerTag(l, m.material.value, m.ins)));
    (s.(m := m), Sent(w, s.state))
  }

  function OnCompletion(l: Lib, s: ServerState, w: Wire, f: Fresh): (ServerState, Outcome)
    requires w.Wire?
  {
    if (s.state != WAITING && s.state != OOB_RECEIVED) || s.m.suite.None? || s.m.material.None?
      then ServerFail(s, ERR_STATE)
    else if !PeerIdMatches(l, s.m, w) then ServerFail(s, ERR_PEER_ID)
    else if w.macp.None? then ServerFail(s, ERR_DATA)
    else if w.macp.value != PeerTag(l, s.m.material.value, s.m.ins) then ServerFail(s, ERR_HMAC)
    else if !f.saved then (s, Fault)
    else
      var a := Association(s.m.peerId, s.m.nai, s.csp, Key(Kz, s.m.material.value));
      (s.(state := REGISTERED, m := s.m.(registered := Some(a))),
       Outcome(Some(Result(EAP_SUCCESS)), REGISTERED, true, true, None))
  }

  // ---- Peer ----

  datatype PeerState = PeerState(state: int, verified: bool, verp: int, csp: int, dirp: int, m: Method)

  function NewPeer(cfg: PeerConfig): PeerState {
    PeerState(UNREGISTERED, false, 0, 0, 0, NEW_METHOD.(nai := cfg.nai))
  }

  function PeerFail(p: PeerState, code: int): (PeerState, Outcome) {
    (p, Failed(code, p.state))
  }

  function PeerReceive(l: Lib, cfg: PeerConfig, p0: PeerState, w: Wire, f: Fresh): (PeerState, Outcome) {
    var p := p0.(verified := false);
    if w.Malformed? then PeerFail(p, ERR_STRUCTURE)
    else if w.eap != "" then OnResult(p0, w, f)
    else if w.error.Some? then (p, Outcome(None, p.state, true, false, w.error))
    else if w.typ.None? then PeerFail(p, ERR_STRUCTURE)
    else match w.typ.value
      case 1 => (p, Sent(EMPTY.(typ := Some(1), peerState := Some(p.state), nai := l.rawStr(p.m.nai),
                                    peerId := if p.state != UNREGISTERED && p.m.peerId != ""
                                              then l.rawStr(p.m.peerId) else ""), p.state))
      case 2 => OnNegotiationRequest(l, cfg, p, w)
      case 3 => OnKeyExchangeRequest(l, p, w, f)
      case 4 => (p, Sent(EMPTY.(typ := Some(4), peerId := l.rawStr(p.m.peerId)), p.state))
      case 5 => if p.m.noobId.None? then PeerFail(p, ERR_STATE)
                else (p, Sent(EMPTY.(typ := Some(5), peerId := l.rawStr(p.m.peerId), noobId := p.m.noobId), p.state))
      case 6 => OnCompletionRequest(l, p, w)
      case _ => PeerFail(p, ERR_TYPE)
  }

  function OnResult(p0: PeerState, w: Wire, f: Fresh): (PeerState, Outcome)
    requires w.Wire?
  {
    var p := p0.(verified := false);
    if w.eap != EAP_SUCCESS then (p, Outcome(None, p.state, true, false, None))
    else if !p0.verified then PeerFail(p, ERR_STATE)
    else if !f.saved then (p, Fault)
    else
      var a := Association(p.m.peerId, p.m.nai, p.csp, Key(Kz, if p.m.material.Some? then p.m.material.value else []));
      (p.(state := REGISTERED, m := p.m.(registered := Some(a))), Outcome(None, REGISTERED, true, true, None))
  }

  /** Zero when the offer leaves the peer a choice, otherwise the error code. */
  function OfferError(l: Lib, cfg: PeerConfig, w: Wire): int
    requires w.Wire?
  {
    var vers, suites, dirs := l.toInts(w.vers), l.toInts(w.suites), l.toInt(w.dirs);
    if vers.None? then ERR_DATA
    else if BestVersion(vers.value, cfg.versions).None? then ERR_VERSION
    else if suites.None? then ERR_DATA
    else if FirstSupported(suites.value, cfg.suites).None? then ERR_SUITE
    else if dirs.None? then ERR_DATA
    else if ChooseDir(dirs.value, cfg.preferDir).None? then ERR_DIRECTION
    else 0
  }

  /** The peer's selection from an acceptable offer. */
  function Choice(l: Lib, cfg: PeerConfig, w: Wire): (r: (int, int, int))
    requires w.Wire? && OfferError(l, cfg, w) == 0
    ensures SupportedSuite(r.1) && 1 <= r.2 <= 2
  {
    FirstSupportedIsFirst(l.toInts(w.suites).value, cfg.suites);
    (BestVersion(l.toInts(w.vers).value, cfg.versions).value,
     FirstSupported(l.toInts(w.suites).value, cfg.suites).value,
     ChooseDir(l.toInt(w.dirs).value, cfg.preferDir).value)
  }

  function OnNegotiationRequest(l: Lib, cfg: PeerConfig, p: PeerState, w: Wire): (PeerState, Outcome)
    requires w.Wire?
  {
    var id := l.toStr(w.peerId);
    if id.None? then PeerFail(p, ERR_DATA)
    else if OfferError(l, cfg, w) != 0 then PeerFail(p.(m := p.m.(peerId := id.value)), OfferError(l, cfg, w))
    else Select(l, cfg, p.(m := p.m.(peerId := id.value)), w, Choice(l, cfg, w))
  }

  function Select(l: Lib, cfg: PeerConfig, p: PeerState, w: Wire, c: (int, int, int)): (PeerState, Outcome)
    requires w.Wire?
  {
    var nai := if w.newNai != "" && l.toStr(w.newNai).Some? then l.toStr(w.newNai).value else p.m.nai;
    var ins := p.m.ins.(vers := w.vers, peerId := w.peerId, suites := w.suites, dirs := w.dirs,
                        serverInfo := InfoText(w.serverInfo), verp := l.rawInt(c.0), suitep := l.rawInt(c.1),
                        dirp := l.rawInt(c.2), peerInfo := InfoText(cfg.info), nai := l.rawStr(nai));
    (p.(verp := c.0, csp := c.1, dirp := c.2, m := p.m.(suite := Some(c.1), nai := nai, ins := ins)),
     Sent(EMPTY.(typ := Some(2), verp := ins.verp, peerId := l.rawStr(p.m.peerId), suitep := ins.suitep,
                 dirp := ins.dirp,
                 peerInfo := ins.peerInfo), p.state))
  }

  function OnKeyExchangeRequest(l: Lib, p: PeerState, w: Wire, f: Fresh): (PeerState, Outcome)
    requires w.Wire?
  {
    if p.state != UNREGISTERED || p.m.suite.None? then PeerFail(p, ERR_STATE)
    else
      var cs := p.m.suite.value;
      var ns, z := NonceOf(l, w.ns), l.dh(cs, f.priv, w.pks);
      if ns.None? || z.None? then PeerFail(p, ERR_DATA)
      else
        var pkp, np := l.jwk(cs, f.priv), l.rawStr(l.b64(f.nonce));
        var ins := p.m.ins.(pks := w.pks, ns := w.ns, pkp := pkp, np := np);
        (p.(state := WAITING, m := p.m.(priv := Some(f.priv), z := z, ns := ns.value, np := f.nonce, ins := ins)),
         Sent(EMPTY.(typ := Some(3), peerId := l.rawStr(p.m.peerId), pkp := pkp, np := np), WAITING))
  }

  function OnCompletionRequest(l: Lib, p: PeerState, w: Wire): (PeerState, Outcome)
    requires w.Wire?
  {
    if p.m.noob == [] then PeerFail(p, ERR_STATE)
    else if w.noobId.None? then PeerFail(p, ERR_DATA)
    else if w.noobId != p.m.noobId then PeerFail(p, ERR_OOB_ID)
    else if w.macs.None? then PeerFail(p, ERR_DATA)
    else
      var m := DeriveKeys(p.m);
      if w.macs.value != ServerTag(l, m.material.value, m.ins) then PeerFail(p.(m := m), ERR_HMAC)
      else (p.(verified := true, m := m),
            Sent(EMPTY.(typ := Some(6), peerId := l.rawStr(m.peerId),
                        macp := Some(PeerTag(l, m.material.value, m.ins))), p.state))
  }

  // ---- The out-of-band step (helpers.go) ----

  /** A fresh or caller-supplied Noob; refused unless it is 16 bytes. */
  function OobOutput(l: Lib, m: Method, dir: int, noob: Bytes): (Method, Option<OobMessage>) {
    if |noob| != 16 then (m, None)
    else
      var m' := SetNoob(l, m, noob);
      (m', Some(OobMessage(m.peerId, l.b64(noob), ComputeHoob(l, dir, m'.ins))))
  }

  /** The Noob is recorded before the fingerprint is compared. */
  function OobInput(l: Lib, m: Method, dir: int, msg: OobMessage): (Method, bool) {
    var noob := l.unb64(msg.noob);
    if m.peerId != "" && msg.peerId != m.peerId then (m, false)
    else if noob.None? || |noob.value| != 16 then (m, false)
    else
      var m' := SetNoob(l, m, noob.value);
      (m', ComputeHoob(l, dir, m'.ins) == msg.hoob)
  }

  function ServerOobOutput(l: Lib, s: ServerState, noob: Bytes): (ServerState, Option<OobMessage>) {
    if s.state != WAITING || (s.dirp != 2 && s.dirp != 3) then (s, None)
    else
      var r := OobOutput(l, s.m, 2, noob);
      (s.(m := r.0), r.1)
  }

  function ServerOobInput(l: Lib, s: ServerState, msg: OobMessage): (ServerState, bool) {
    if s.state != WAITING || (s.dirp != 1 && s.dirp != 3) then (s, false)
    else
      var r := OobInput(l, s.m, 1, msg);
      (s.(m := r.0, state := if r.1 then OOB_RECEIVED else s.state), r.1)
  }

  function PeerOobOutput(l: Lib, p: PeerState, noob: Bytes): (PeerState, Option<OobMessage>) {
    if p.state != WAITING || (p.dirp != 1 && p.dirp != 3) then (p, None)
    else
      var r := OobOutput(l, p.m, 1, noob);
      (p.(m := r.0), r.1)
  }

  function PeerOobInput(l: Lib, p: PeerState, msg: OobMessage): (PeerState, bool) {
    if p.state != WAITING || (p.dirp != 2 && p.dirp != 3) then (p, false)
    else
      var r := OobInput(l, p.m, 2, msg);
      (p.(m := r.0, state := if r.1 then OOB_RECEIVED else p.state), r.1)
  }

  function PeerOobInputNoob(l: Lib, p: PeerState, noob: Bytes): (PeerState, bool) {
    if p.state != WAITING || (p.dirp != 2 && p.dirp != 3) || |noob| != 16 then (p, false)
    else (p.(m := SetNoob(l, p.m, noob), state := OOB_RECEIVED), true)
  }
}
