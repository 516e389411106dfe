/**
 * What each EAP-NOOB role keeps on its own, under any sequence of messages and
 * out-of-band calls: states only move forward, `registered` is set exactly in
 * Registered, and suite, private key, shared secret and MAC keys are in place
 * wherever a handler uses them.
 */
module NoobGuards {
  import opened Options
  import opened Kdf
  import opened Transcript
  import opened Noob

  ghost predicate MethodGuard(m: Method, state: int) {
    && (state == UNREGISTERED || state == WAITING || state == OOB_RECEIVED || state == REGISTERED)
    && (m.registered.Some? <==> state == REGISTERED)
    && (state != UNREGISTERED ==> m.suite.Some? && m.priv.Some? && m.z.Some?)
    && (m.noob != [] <==> m.noobId.Some?)
    && (m.noob != [] ==> |m.noob| == 16 && state != UNREGISTERED)
    && (m.material.Some? ==> m.noob != [])
  }

  ghost predicate ServerGuard(s: ServerState) {
    && MethodGuard(s.m, s.state)
    && (s.m.suite.Some? ==> s.m.priv.Some? && s.m.suite == Some(s.csp) && SupportedSuite(s.csp) && 1 <= s.dirp <= 3)
  }

  ghost predicate PeerGuard(p: PeerState) {
    && MethodGuard(p.m, p.state)
    && (p.m.suite.Some? ==> p.m.suite == Some(p.csp) && SupportedSuite(p.csp) && 1 <= p.dirp <= 2)
    && (p.verified ==> p.m.material.Some?)
  }

  /** Everything a Completion MAC is computed from. */
  ghost predicate MacReady(m: Method) {
    m.suite.Some? && m.z.Some? && |m.noob| == 16 && m.material == Some(Material(m))
  }

  predicate SendsServerTag(o: Outcome) {
    o.Outcome? && o.send.Some? && o.send.value.Wire? && o.send.value.macs.Some?
  }

  predicate SendsPeerTag(o: Outcome) {
    o.Outcome? && o.send.Some? && o.send.value.Wire? && o.send.value.macp.Some?
  }

  predicate Succeeds(o: Outcome) {
    o.Outcome? && o.success
  }

  /** One server step: forward, guarded, and every tag and every success accounted for. */
  ghost predicate ServerStep(l: Lib, s: ServerState, w: Wire, s': ServerState, o: Outcome) {
    && ServerGuard(s') && s.state <= s'.state
    && (SendsServerTag(o) ==> && MacReady(s'.m) && !Succeeds(o) && s'.state == s.state
                              && o.send.value.macs.value == ServerTag(l, s'.m.material.value, s'.m.ins))
    && (Succeeds(o) <==> s.state != REGISTERED && s'.state == REGISTERED)
    && (Succeeds(o) ==> && w.Wire? && s.m.material.Some? && s.m.suite.Some?
                        && w.macp == Some(PeerTag(l, s.m.material.value, s.m.ins))
                        && s'.m.registered.value.kz == Key(Kz, s.m.material.value)
                        && s'.m.(registered := None) == s.m.(registered := None))
    && (s'.m.registered != s.m.registered ==> Succeeds(o))
    && !SendsPeerTag(o)
  }

  lemma CompletionRequestStep(l: Lib, s: ServerState, w: Wire)
    requires ServerGuard(s) && s.m.noob != []
    ensures ServerStep(l, s, w, CompletionRequest(l, s).0, CompletionRequest(l, s).1)
  {
    assert Material(DeriveKeys(s.m)) == Material(s.m);
  }

  /** A step that neither sends a tag nor changes the association. */
  lemma QuietStep(l: Lib, s: ServerState, w: Wire, s': ServerState, o: Outcome)
    requires ServerGuard(s) && ServerGuard(s') && s'.state == s.state && s'.m.registered == s.m.registered
    requires !SendsServerTag(o) && !SendsPeerTag(o) && !Succeeds(o)
    ensures ServerStep(l, s, w, s', o)
  {
  }

  lemma StartCompletionStep(l: Lib, s: ServerState, w: Wire)
    requires ServerGuard(s) && w.Wire?
    ensures ServerStep(l, s, w, StartCompletion(l, s, w).0, StartCompletion(l, s, w).1)
  {
    if !PeerIdMatches(l, s.m, w) || s.m.noob == [] || s.peerState == 2 {
      QuietStep(l, s, w, s, StartCompletion(l, s, w).1);
    } else {
      CompletionRequestStep(l, s, w);
    }
  }

  lemma NegotiationRequestStep(l: Lib, cfg: ServerConfig, s: ServerState, w: Wire, f: Fresh)
    requires ServerGuard(s)
    ensures ServerStep(l, s, w, NegotiationRequest(l, cfg, s, f).0, NegotiationRequest(l, cfg, s, f).1)
  {
    QuietStep(l, s, w, NegotiationRequest(l, cfg, s, f).0, NegotiationRequest(l, cfg, s, f).1);
  }

  lemma DispatchStep(l: Lib, cfg: ServerConfig, s: ServerState, w: Wire, f: Fresh)
    requires ServerGuard(s) && w.Wire?
    ensures ServerStep(l, s, w, Dispatch(l, cfg, s, w, f).0, Dispatch(l, cfg, s, w, f).1)
  {
    var ss, ps := s.state, s.peerState;
    if (ss == 2 && (ps == 1 || ps == 2)) || (ps == 2 && (ss == 1 || ss == 2)) {
      StartCompletionStep(l, s, w);
    } else if !(ss == 1 && ps == 1) && (ss == 0 || ps == 0) {
      NegotiationRequestStep(l, cfg, s, w, f);
    } else {
      QuietStep(l, s, w, s, Dispatch(l, cfg, s, w, f).1);
    }
  }

  lemma OnDiscoveryStep(l: Lib, cfg: ServerConfig, s: ServerState, w: Wire, f: Fresh)
    requires ServerGuard(s) && w.Wire?
    ensures ServerStep(l, s, w, OnDiscovery(l, cfg, s, w, f).0, OnDiscovery(l, cfg, s, w, f).1)
  {
    if w.peerState.None? {
      QuietStep(l, s, w, s, OnDiscovery(l, cfg, s, w, f).1);
    } else {
      DispatchStep(l, cfg, Heard(l, s, w), w, f);
      Rebase(l, s, Heard(l, s, w), w, OnDiscovery(l, cfg, s, w, f).0, OnDiscovery(l, cfg, s, w, f).1);
    }
  }

  lemma Rebase(l: Lib, s: ServerState, s1: ServerState, w: Wire, s': ServerState, o: Outcome)
    requires ServerStep(l, s1, w, s', o) && !Succeeds(o)
    requires s1.state == s.state && s1.m.registered == s.m.registered
    ensures ServerStep(l, s, w, s', o)
  {
  }

  lemma OnNegotiationStep(l: Lib, cfg: ServerConfig, s: ServerState, w: Wire, f: Fresh)
    requires ServerGuard(s) && w.Wire?
    ensures ServerStep(l, s, w, OnNegotiation(l, cfg, s, w, f).0, OnNegotiation(l, cfg, s, w, f).1)
  {
  }

  lemma OnKeyExchangeStep(l: Lib, s: ServerState, w: Wire)
    requires ServerGuard(s) && w.Wire?
    ensures ServerStep(l, s, w, OnKeyExchange(l, s, w).0, OnKeyExchange(l, s, w).1)
  {
  }

  lemma OnNoobIdStep(l: Lib, s: ServerState, w: Wire)
    requires ServerGuard(s) && w.Wire?
    ensures ServerStep(l, s, w, OnNoobId(l, s, w).0, OnNoobId(l, s, w).1)
  {
    if s.m.noob != [] { CompletionRequestStep(l, s, w); }
  }

  lemma OnCompletionStep(l: Lib, s: ServerState, w: Wire, f: Fresh)
    requires ServerGuard(s) && w.Wire?
    ensures ServerStep(l, s, w, OnCompletion(l, s, w, f).0, OnCompletion(l, s, w, f).1)
  {
  }

  lemma ServerReceiveStep(l: Lib, cfg: ServerConfig, s: ServerState, w: Wire, f: Fresh)
    requires ServerGuard(s)
    ensures ServerStep(l, s, w, ServerReceive(l, cfg, s, w, f).0, ServerReceive(l, cfg, s, w, f).1)
  {
    var (s', o) := ServerReceive(l, cfg, s, w, f);
    if w.Malformed? || w.error.Some? || w.typ.None? {
      QuietStep(l, s, w, s', o);
    } else {
      match w.typ.value
      case 1 => OnDiscoveryStep(l, cfg, s, w, f);
      case 2 => OnNegotiationStep(l, cfg, s, w, f);
      case 3 => OnKeyExchangeStep(l, s, w);
      case 4 => QuietStep(l, s, w, s', o);
      case 5 => OnNoobIdStep(l, s, w);
      case 6 => OnCompletionStep(l, s, w, f);
      case _ => QuietStep(l, s, w, s', o);
    }
  }

  ghost predicate PeerStep(l: Lib, p: PeerState, w: Wire, p': PeerState, o: Outcome) {
    && PeerGuard(p') && p.state <= p'.state
    && (SendsPeerTag(o) <==> p'.verified)
    && (p'.verified ==> && MacReady(p'.m) && w.Wire? && !Succeeds(o) && p'.state == p.state
                        && w.macs == Some(ServerTag(l, p'.m.material.value, p'.m.ins))
                        && o.send.value.macp.value == PeerTag(l, p'.m.material.value, p'.m.ins))
    && (Succeeds(o) ==> && p.verified && p.m.material.Some? && p'.m.material == p.m.material && p'.state == REGISTERED
                        && p'.m.registered.value.kz == Key(Kz, p.m.material.value))
    && (p'.m.registered != p.m.registered ==> Succeeds(o))
    && !SendsServerTag(o)
  }

  lemma QuietPeerStep(l: Lib, p: PeerState, w: Wire, p': PeerState, o: Outcome)
    requires PeerGuard(p) && PeerGuard(p') && !p'.verified && p'.state >= p.state && p'.m.registered == p.m.registered
    requires !SendsServerTag(o) && !SendsPeerTag(o) && !Succeeds(o)
    ensures PeerStep(l, p, w, p', o)
  {
  }

  lemma OnNegotiationRequestStep(l: Lib, cfg: PeerConfig, p: PeerState, w: Wire)
    requires PeerGuard(p) && !p.verified && w.Wire?
    ensures PeerStep(l, p, w, OnNegotiationRequest(l, cfg, p, w).0, OnNegotiationRequest(l, cfg, p, w).1)
  {
    var id := l.toStr(w.peerId);
    if id.Some? && OfferError(l, cfg, w) == 0 {
      var p1, c := p.(m := p.m.(peerId := id.value)), Choice(l, cfg, w);
      QuietPeerStep(l, p, w, Select(l, cfg, p1, w, c).0, Select(l, cfg, p1, w, c).1);
    } else {
      QuietPeerStep(l, p, w, OnNegotiationRequest(l, cfg, p, w).0, OnNegotiationRequest(l, cfg, p, w).1);
    }
  }

  lemma OnKeyExchangeRequestStep(l: Lib, p: PeerState, w: Wire, f: Fresh)
    requires PeerGuard(p) && !p.verified && w.Wire?
    ensures PeerStep(l, p, w, OnKeyExchangeRequest(l, p, w, f).0, OnKeyExchangeRequest(l, p, w, f).1)
  {
    QuietPeerStep(l, p, w, OnKeyExchangeRequest(l, p, w, f).0, OnKeyExchangeRequest(l, p, w, f).1);
  }

  lemma OnCompletionRequestStep(l: Lib, p: PeerState, w: Wire)
    requires PeerGuard(p) && !p.verified && w.Wire?
    ensures PeerStep(l, p, w, OnCompletionRequest(l, p, w).0, OnCompletionRequest(l, p, w).1)
  {
    var (p', o) := OnCompletionRequest(l, p, w);
    if p'.verified {
      assert Material(DeriveKeys(p.m)) == Material(p.m);
    } else {
      QuietPeerStep(l, p, w, p', o);
    }
  }

  lemma OnResultStep(l: Lib, p: PeerState, w: Wire, f: Fresh)
    requires PeerGuard(p) && w.Wire?
    ensures PeerStep(l, p, w, OnResult(p, w, f).0, OnResult(p, w, f).1)
  {
  }

  lemma PeerReceiveStep(l: Lib, cfg: PeerConfig, p: PeerState, w: Wire, f: Fresh)
    requires PeerGuard(p)
    ensures PeerStep(l, p, w, PeerReceive(l, cfg, p, w, f).0, PeerReceive(l, cfg, p, w, f).1)
  {
    var (p', o) := PeerReceive(l, cfg, p, w, f);
    var p1 := p.(verified := false);
    if w.Malformed? {
      QuietPeerStep(l, p, w, p', o);
    } else if w.eap != "" {
      OnResultStep(l, p, w, f);
    } else if w.error.Some? || w.typ.None? {
      QuietPeerStep(l, p, w, p', o);
    } else {
      match w.typ.value
      case 2 => OnNegotiationRequestStep(l, cfg, p1, w);
      case 3 => OnKeyExchangeRequestStep(l, p1, w, f);
      case 6 => OnCompletionRequestStep(l, p1, w);
      case _ => QuietPeerStep(l, p, w, p', o);
    }
  }

  // ---- Runs of one role on its own ----

  datatype Call =
    | Message(w: Wire, f: Fresh)
    | Output(noob: Bytes)
    | Input(msg: OobMessage)
    | InputNoob(noob: Bytes) // peer only

  function ServerCall(l: Lib, cfg: ServerConfig, s: ServerState, c: Call): ServerState {
    match c
    case Message(w, f) => ServerReceive(l, cfg, s, w, f).0
    case Output(noob) => ServerOobOutput(l, s, noob).0
    case Input(msg) => ServerOobInput(l, s, msg).0
    case InputNoob(_) => s
  }

  function PeerCall(l: Lib, cfg: PeerConfig, p: PeerState, c: Call): PeerState {
    match c
    case Message(w, f) => PeerReceive(l, cfg, p, w, f).0
    case Output(noob) => PeerOobOutput(l, p, noob).0
    case Input(msg) => PeerOobInput(l, p, msg).0
    case InputNoob(noob) => PeerOobInputNoob(l, p, noob).0
  }

  function ServerRun(l: Lib, cfg: ServerConfig, calls: seq<Call>): ServerState {
    if calls == [] then NEW_SERVER
    else ServerCall(l, cfg, ServerRun(l, cfg, calls[..|calls| - 1]), calls[|calls| - 1])
  }

  function PeerRun(l: Lib, cfg: PeerConfig, calls: seq<Call>): PeerState {
    if calls == [] then NewPeer(cfg)
    else PeerCall(l, cfg, PeerRun(l, cfg, calls[..|calls| - 1]), calls[|calls| - 1])
  }

  lemma ServerCallForward(l: Lib, cfg: ServerConfig, s: ServerState, c: Call)
    requires ServerGuard(s)
    ensures ServerGuard(ServerCall(l, cfg, s, c)) && s.state <= ServerCall(l, cfg, s, c).state
  {
    if c.Message? { ServerReceiveStep(l, cfg, s, c.w, c.f); }
  }

  lemma PeerCallForward(l: Lib, cfg: PeerConfig, p: PeerState, c: Call)
    requires PeerGuard(p)
    ensures PeerGuard(PeerCall(l, cfg, p, c)) && p.state <= PeerCall(l, cfg, p, c).state
  {
    if c.Message? { PeerReceiveStep(l, cfg, p, c.w, c.f); }
  }

  lemma {:induction false} ServerRunForward(l: Lib, cfg: ServerConfig, calls: seq<Call>, k: nat)
    requires k <= |calls|
    ensures ServerGuard(ServerRun(l, cfg, calls))
    ensures ServerRun(l, cfg, calls[..k]).state <= ServerRun(l, cfg, calls).state
    decreases |calls|
  {
    if calls == [] {
    } else {
      var init, c := calls[..|calls| - 1], calls[|calls| - 1];
      ServerRunForward(l, cfg, init, if k < |calls| then k else 0);
      ServerCallForward(l, cfg, ServerRun(l, cfg, init), c);
      if k < |calls| { assert init[..k] == calls[..k]; } else { assert calls[..k] == calls; }
    }
  }

  lemma {:induction false} PeerRunForward(l: Lib, cfg: PeerConfig, calls: seq<Call>, k: nat)
    requires k <= |calls|
    ensures PeerGuard(PeerRun(l, cfg, calls))
    ensures PeerRun(l, cfg, calls[..k]).state <= PeerRun(l, cfg, calls).state
    decreases |calls|
  {
    if calls == [] {
    } else {
      var init, c := calls[..|calls| - 1], calls[|calls| - 1];
      PeerRunForward(l, cfg, init, if k < |calls| then k else 0);
      PeerCallForward(l, cfg, PeerRun(l, cfg, init), c);
      if k < |calls| { assert init[..k] == calls[..k]; } else { assert calls[..k] == calls; }
    }
  }
}
