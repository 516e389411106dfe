/**
 * Completeness of EAP-NOOB: what happens when every output of one role is handed
 * to the other. The Initial Exchange takes both sides to Waiting with one
 * transcript exactly when the configurations share a version, a suite and a
 * direction, and after the out-of-band step both sides register the same key.
 */
module NoobRelay {
  import opened Options
  import opened Kdf
  import opened Transcript
  import opened Noob

  function Next(o: Outcome): Option<Wire> {
    if o.Outcome? then o.send else None
  }

  /** Both roles, the messages delivered, and the message left over when `fs` runs out. */
  datatype Ended = Ended(sv: ServerState, pr: PeerState, delivered: nat, left: Option<Wire>)

  /** Hand `w` to the peer or the server, then its answer to the other side, and so on. */
  function Relay(l: Lib, sc: ServerConfig, pc: PeerConfig, sv: ServerState, pr: PeerState,
                 w: Option<Wire>, toPeer: bool, fs: seq<Fresh>): Ended
    decreases |fs|
  {
    if w.None? || fs == [] then Ended(sv, pr, 0, w)
    else if toPeer then
      var (p', o) := PeerReceive(l, pc, pr, w.value, fs[0]);
      var e := Relay(l, sc, pc, sv, p', Next(o), false, fs[1..]);
      e.(delivered := e.delivered + 1)
    else
      var (s', o) := ServerReceive(l, sc, sv, w.value, fs[0]);
      var e := Relay(l, sc, pc, s', pr, Next(o), true, fs[1..]);
      e.(delivered := e.delivered + 1)
  }

  /** Server.Start. */
  const START := EMPTY.(typ := Some(1))

  function Conversation(l: Lib, sc: ServerConfig, pc: PeerConfig, sv: ServerState, pr: PeerState, fs: seq<Fresh>): Ended
  {
    Relay(l, sc, pc, sv, pr, Some(START), true, fs)
  }

  // ---- What the two configurations agree on ----

  predicate CommonVersion(sc: ServerConfig, pc: PeerConfig) {
    exists v | v in sc.versions :: v in pc.versions && v >= 0
  }

  predicate CommonSuite(sc: ServerConfig, pc: PeerConfig) {
    exists c | c in sc.suites :: c in pc.suites && SupportedSuite(c)
  }

  predicate Compatible(sc: ServerConfig, pc: PeerConfig) {
    CommonVersion(sc, pc) && CommonSuite(sc, pc) && 1 <= sc.dirs <= 3
  }

  /** The offer a server with this configuration sends. */
  predicate OfferOf(l: Lib, sc: ServerConfig, w: Wire) {
    && w.Wire? && l.toInts(w.vers) == Some(sc.versions) && l.toInts(w.suites) == Some(sc.suites)
    && l.toInt(w.dirs) == Some(sc.dirs)
  }

  /** The peer finds a choice in the offer exactly when the configurations are compatible. */
  lemma OfferAcceptable(l: Lib, sc: ServerConfig, pc: PeerConfig, w: Wire)
    requires OfferOf(l, sc, w)
    ensures OfferError(l, pc, w) == 0 <==> Compatible(sc, pc)
  {
    BestVersionIsGreatest(sc.versions, pc.versions);
    FirstSupportedIsFirst(sc.suites, pc.suites);
  }

  /** Every choice the peer makes passes the server's checks. */
  lemma ChoiceAccepted(l: Lib, sc: ServerConfig, pc: PeerConfig, w: Wire, r: Wire)
    requires ScalarLaws(l) && OfferOf(l, sc, w) && OfferError(l, pc, w) == 0 && r.Wire?
    requires var c := Choice(l, pc, w); r.verp == l.rawInt(c.0) && r.suitep == l.rawInt(c.1) && r.dirp == l.rawInt(c.2)
    ensures SelectionError(l, sc, r) == 0
  {
    var c := Choice(l, pc, w);
    BestVersionIsGreatest(sc.versions, pc.versions);
    FirstSupportedIsFirst(sc.suites, pc.suites);
    var v, s, d := c.0, c.1, c.2;
    assert l.toInt(l.rawInt(v)) == Some(v) && l.toInt(l.rawInt(s)) == Some(s) && l.toInt(l.rawInt(d)) == Some(d);
  }

  /**
   * What the peer picks: the greatest common version, the server's first suite both can run, and its
   * preferred direction.
   */
  ghost predicate Chosen(sc: ServerConfig, pc: PeerConfig, p: PeerState) {
    && p.verp in sc.versions && p.verp in pc.versions
    && (forall v | v in sc.versions && v in pc.versions :: v <= p.verp)
    && (exists k | 0 <= k < |sc.suites| :: && sc.suites[k] == p.csp && p.csp in pc.suites && SupportedSuite(p.csp)
          && forall i | 0 <= i < k :: !(sc.suites[i] in pc.suites && SupportedSuite(sc.suites[i])))
    && p.dirp == if sc.dirs == 1 || sc.dirs == 2 then sc.dirs else if pc.preferDir == 1 then 1 else 2
  }

  lemma ChoiceIsChosen(l: Lib, sc: ServerConfig, pc: PeerConfig, w: Wire, p: PeerState)
    requires OfferOf(l, sc, w) && OfferError(l, pc, w) == 0 && Choice(l, pc, w) == (p.verp, p.csp, p.dirp)
    ensures Chosen(sc, pc, p)
  {
    BestVersionIsGreatest(sc.versions, pc.versions);
    FirstSupportedIsFirst(sc.suites, pc.suites);
  }

  // ---- The Initial Exchange, message by message ----

  function Nai(sc: ServerConfig, pc: PeerConfig): string {
    if sc.newNai != "" then sc.newNai else pc.nai
  }

  ghost predicate Offered(l: Lib, sc: ServerConfig, pc: PeerConfig, id: string, s: ServerState, w: Wire) {
    && s.state == UNREGISTERED && s.peerState == 0
    && w == EMPTY.(typ := Some(2), vers := l.rawInts(sc.versions), peerId := l.rawStr(id),
                   suites := l.rawInts(sc.suites),
                   dirs := l.rawInt(sc.dirs), serverInfo := InfoText(sc.info),
                   newNai := if sc.newNai != "" then l.rawStr(sc.newNai) else "")
    && s.m == NEW_METHOD.(nai := Nai(sc, pc), peerId := id,
                          ins := NO_INPUTS.(vers := w.vers, peerId := w.peerId, suites := w.suites, dirs := w.dirs,
                                            serverInfo := w.serverInfo))
  }

  function Hello(l: Lib, pc: PeerConfig): Wire {
    EMPTY.(typ := Some(1), peerState := Some(UNREGISTERED), nai := l.rawStr(pc.nai))
  }

  lemma PeerSaysHello(l: Lib, pc: PeerConfig, f: Fresh)
    ensures PeerReceive(l, pc, NewPeer(pc), START, f) == (NewPeer(pc), Sent(Hello(l, pc), UNREGISTERED))
  {
  }

  lemma ServerOffers(l: Lib, sc: ServerConfig, pc: PeerConfig, f: Fresh)
    requires ScalarLaws(l) && pc.nai != ""
    ensures var (s, o) := ServerReceive(l, sc, NEW_SERVER, Hello(l, pc), f);
            Next(o).Some? && Offered(l, sc, pc, f.peerId, s, Next(o).value)
  {
    var nai := pc.nai;
    assert l.toStr(l.rawStr(nai)) == Some(nai);
  }

  lemma OfferedIsOffer(l: Lib, sc: ServerConfig, pc: PeerConfig, id: string, s: ServerState, w: Wire)
    requires ScalarLaws(l) && Offered(l, sc, pc, id, s, w)
    ensures OfferOf(l, sc, w) && l.toStr(w.peerId) == Some(id)
    ensures sc.newNai != "" ==> w.newNai != "" && l.toStr(w.newNai) == Some(sc.newNai)
  {
    var v, c, d, n := sc.versions, sc.suites, sc.dirs, sc.newNai;
    assert l.toInts(l.rawInts(v)) == Some(v) && l.toInts(l.rawInts(c)) == Some(c) && l.toInt(l.rawInt(d)) == Some(d);
    assert l.toStr(l.rawStr(id)) == Some(id) && l.toStr(l.rawStr(n)) == Some(n);
  }

  /** The transcript after the peer's selection: the server's fields are in place already. */
  ghost predicate Selected(l: Lib, sc: ServerConfig, pc: PeerConfig, s: ServerState, p: PeerState, w: Wire) {
    && p.state == UNREGISTERED && 1 <= p.dirp <= 2 && SupportedSuite(p.csp) && !p.verified
    && w == EMPTY.(typ := Some(2), verp := l.rawInt(p.verp), peerId := l.rawStr(s.m.peerId), suitep := l.rawInt(p.csp),
                   dirp := l.rawInt(p.dirp), peerInfo := InfoText(pc.info))
    && SelectionError(l, sc, w) == 0 && Chosen(sc, pc, p)
    && p.m == NEW_METHOD.(nai := s.m.nai, peerId := s.m.peerId, suite := Some(p.csp),
                          ins := s.m.ins.(verp := w.verp, suitep := w.suitep, dirp := w.dirp, peerInfo := w.peerInfo,
                                          nai := l.rawStr(s.m.nai)))
  }

  lemma PeerSelects(l: Lib, sc: ServerConfig, pc: PeerConfig, id: string, s: ServerState, w: Wire, f: Fresh)
    requires ScalarLaws(l) && pc.nai != "" && Compatible(sc, pc) && Offered(l, sc, pc, id, s, w)
    ensures var (p, o) := PeerReceive(l, pc, NewPeer(pc), w, f);
            Next(o).Some? && Selected(l, sc, pc, s, p, Next(o).value)
  {
    OfferedIsOffer(l, sc, pc, id, s, w);
    OfferAcceptable(l, sc, pc, w);
    var (p, o) := PeerReceive(l, pc, NewPeer(pc), w, f);
    ChoiceAccepted(l, sc, pc, w, Next(o).value);
    ChoiceIsChosen(l, sc, pc, w, p);
  }

  lemma PeerRefuses(l: Lib, sc: ServerConfig, pc: PeerConfig, id: string, s: ServerState, w: Wire, f: Fresh)
    requires ScalarLaws(l) && pc.nai != "" && !Compatible(sc, pc) && Offered(l, sc, pc, id, s, w)
    ensures var (p, o) := PeerReceive(l, pc, NewPeer(pc), w, f);
            p.state == UNREGISTERED && Next(o).Some? && Next(o).value.Wire? && Next(o).value.error.Some?
  {
    OfferedIsOffer(l, sc, pc, id, s, w);
    OfferAcceptable(l, sc, pc, w);
  }

  /** The server adopts the selection and adds its key and nonce. */
  ghost predicate Keyed(l: Lib, s: ServerState, p: PeerState, w: Wire, f: Fresh) {
    && p.state == UNREGISTERED && s.state == UNREGISTERED && !p.verified
    && s.csp == p.csp && s.dirp == p.dirp && s.verp == p.verp && 1 <= p.dirp <= 2 && SupportedSuite(p.csp)
    && w == EMPTY.(typ := Some(3), peerId := l.rawStr(s.m.peerId), pks := l.jwk(p.csp, f.priv),
                   ns := l.rawStr(l.b64(f.nonce)))
    && s.m == p.m.(priv := Some(f.priv), ns := f.nonce, ins := p.m.ins.(pks := w.pks, ns := w.ns))
    && p.m.suite == Some(p.csp) && p.m.noob == [] && p.m.registered.None? && p.m.nai != ""
  }

  lemma ServerAdopts(l: Lib, sc: ServerConfig, pc: PeerConfig, id: string, s: ServerState, p: PeerState, o: Wire,
          w: Wire, f: Fresh)
    requires ScalarLaws(l) && pc.nai != "" && Offered(l, sc, pc, id, s, o) && Selected(l, sc, pc, s, p, w)
    ensures var (s', r) := ServerReceive(l, sc, s, w, f);
            Next(r).Some? && Keyed(l, s', p, Next(r).value, f)
  {
    var v, c, d := p.verp, p.csp, p.dirp;
    assert l.toInt(l.rawInt(v)) == Some(v) && l.toInt(l.rawInt(c)) == Some(c) && l.toInt(l.rawInt(d)) == Some(d);
    assert l.toStr(l.rawStr(id)) == Some(id);
  }

  /** Both sides done with the Initial Exchange: Waiting, one transcript, one secret. */
  ghost predicate Met(s: ServerState, p: PeerState) {
    && s.state == WAITING && p.state == WAITING && !p.verified
    && s.dirp == p.dirp && 1 <= p.dirp <= 2 && s.csp == p.csp && s.verp == p.verp && SupportedSuite(p.csp)
    && s.m.suite == Some(p.csp) && s.m.priv.Some? && p.m.priv.Some? && s.m.z.Some? && s.m.noob == [] && s.m.nai != ""
    && s.m.registered.None?
    && s.m.(priv := None) == p.m.(priv := None) // transcript, identity, nonces and secret
  }

  /**
   * What both sides hold after the Initial Exchange, in terms of the two configurations, the PeerId
   * minted, and the private keys and nonces of `g` (server) and `f` (peer): every field a MAC covers.
   */
  ghost predicate Established(l: Lib, sc: ServerConfig, pc: PeerConfig, id: string, g: Fresh, f: Fresh,
          s: ServerState, p: PeerState)
  {
    var pks, pkp := l.jwk(p.csp, g.priv), l.jwk(p.csp, f.priv);
    && Chosen(sc, pc, p) && p.m.peerId == id && p.m.nai == Nai(sc, pc) && p.m.ns == g.nonce && p.m.np == f.nonce
    && s.m.priv == Some(g.priv) && p.m.priv == Some(f.priv) && p.m.z == l.dh(p.csp, g.priv, pkp)
    && p.m.ins == MacInputs(
         l.rawInts(sc.versions), l.rawInt(p.verp), l.rawStr(id), l.rawInts(sc.suites), l.rawInt(sc.dirs),
         InfoText(sc.info), l.rawInt(p.csp), l.rawInt(p.dirp), l.rawStr(Nai(sc, pc)), InfoText(pc.info),
         pks, l.rawStr(l.b64(g.nonce)), pkp, l.rawStr(l.b64(f.nonce)), "")
  }

  /** The same, with the server's last message still under way. */
  ghost predicate Answered(l: Lib, s: ServerState, p: PeerState, w: Wire, a: int) {
    && s.state == UNREGISTERED && p.state == WAITING && !p.verified && s.m.priv == Some(a)
    && w == EMPTY.(typ := Some(3), peerId := l.rawStr(s.m.peerId), pkp := p.m.ins.pkp, np := l.rawStr(l.b64(p.m.np)))
    && p.m.ins.np == w.np && p.m.priv.Some? && w.pkp == l.jwk(p.csp, p.m.priv.value) && p.m.z == l.dh(p.csp, a, w.pkp)
    && s.m.suite == Some(p.csp)
    && Met(s.(state := WAITING, m := s.m.(z := p.m.z, np := p.m.np, ins := s.m.ins.(pkp := w.pkp, np := w.np))), p)
  }

  /** The peer once it has answered the key exchange: its key and nonce against the server's. */
  function Shared(l: Lib, p: PeerState, g: Fresh, f: Fresh): PeerState {
    var pks, pkp := l.jwk(p.csp, g.priv), l.jwk(p.csp, f.priv);
    p.(state := WAITING, verified := false,
       m := p.m.(priv := Some(f.priv), z := l.dh(p.csp, g.priv, pkp), ns := g.nonce, np := f.nonce,
                 ins := p.m.ins.(pks := pks, ns := l.rawStr(l.b64(g.nonce)), pkp := pkp,
                                 np := l.rawStr(l.b64(f.nonce)))))
  }

  lemma PeerAnswers(l: Lib, pc: PeerConfig, s: ServerState, p: PeerState, w: Wire, g: Fresh, f: Fresh)
    requires ScalarLaws(l) && DhLaws(l) && Keyed(l, s, p, w, g)
    ensures var (p', o) := PeerReceive(l, pc, p, w, f);
            Next(o).Some? && Answered(l, s, p', Next(o).value, g.priv) && p' == Shared(l, p, g, f)
  {
    var c, a, b, n := p.csp, g.priv, f.priv, g.nonce;
    assert l.dh(c, b, l.jwk(c, a)) == l.dh(c, a, l.jwk(c, b)) && l.dh(c, b, l.jwk(c, a)).Some?;
    NonceRoundTrip(l, n);
  }

  /** A nonce survives the wire. */
  lemma NonceRoundTrip(l: Lib, n: Bytes)
    requires ScalarLaws(l)
    ensures NonceOf(l, l.rawStr(l.b64(n))) == Some(n)
  {
    var t := l.b64(n);
    assert l.toStr(l.rawStr(t)) == Some(t) && l.unb64(t) == Some(n);
  }

  lemma ServerMoves(l: Lib, sc: ServerConfig, s: ServerState, p: PeerState, w: Wire, a: int, f: Fresh)
    requires ScalarLaws(l) && DhLaws(l) && Answered(l, s, p, w, a)
    ensures var (s', o) := ServerReceive(l, sc, s, w, f);
            Met(s', p) && Next(o) == Some(Result(EAP_FAILURE)) && s'.m.priv == s.m.priv
  {
    var c, b, id, n := p.csp, p.m.priv.value, s.m.peerId, p.m.np;
    NonceRoundTrip(l, n);
    assert l.toStr(l.rawStr(id)) == Some(id);
    assert l.dh(c, b, l.jwk(c, a)) == l.dh(c, a, l.jwk(c, b));
  }

  // ---- The Initial Exchange as a whole ----

  lemma ToPeer(l: Lib, sc: ServerConfig, pc: PeerConfig, s: ServerState, p: PeerState, w: Wire, fs: seq<Fresh>,
          p': PeerState, o: Outcome)
    requires fs != [] && (p', o) == PeerReceive(l, pc, p, w, fs[0])
    ensures var e := Relay(l, sc, pc, s, p', Next(o), false, fs[1..]);
            Relay(l, sc, pc, s, p, Some(w), true, fs) == e.(delivered := e.delivered + 1)
  {
  }

  lemma ToServer(l: Lib, sc: ServerConfig, pc: PeerConfig, s: ServerState, p: PeerState, w: Wire, fs: seq<Fresh>,
          s': ServerState, o: Outcome)
    requires fs != [] && (s', o) == ServerReceive(l, sc, s, w, fs[0])
    ensures var e := Relay(l, sc, pc, s', p, Next(o), true, fs[1..]);
            Relay(l, sc, pc, s, p, Some(w), false, fs) == e.(delivered := e.delivered + 1)
  {
  }

  /** A closing message: the peer is left as it is and answers nothing. */
  lemma Closing(l: Lib, sc: ServerConfig, pc: PeerConfig, s: ServerState, p: PeerState, fs: seq<Fresh>)
    requires fs != [] && !p.verified
    ensures Relay(l, sc, pc, s, p, Some(Result(EAP_FAILURE)), true, fs) == Ended(s, p, 1, None)
  {
    var (p', o) := PeerReceive(l, pc, p, Result(EAP_FAILURE), fs[0]);
    ToPeer(l, sc, pc, s, p, Result(EAP_FAILURE), fs, p', o);
  }

  lemma FromKeyed(l: Lib, sc: ServerConfig, pc: PeerConfig, s: ServerState, p: PeerState, w: Wire, g: Fresh,
          fs: seq<Fresh>)
    requires ScalarLaws(l) && DhLaws(l) && Keyed(l, s, p, w, g) && |fs| >= 3
    ensures var e := Relay(l, sc, pc, s, p, Some(w), true, fs);
            && Met(e.sv, e.pr) && e.delivered == 3 && e.left.None?
            && e.pr == Shared(l, p, g, fs[0]) && e.sv.m.priv == Some(g.priv)
  {
    var (p', o) := PeerReceive(l, pc, p, w, fs[0]);
    PeerAnswers(l, pc, s, p, w, g, fs[0]);
    ToPeer(l, sc, pc, s, p, w, fs, p', o);
    var (s', q) := ServerReceive(l, sc, s, Next(o).value, fs[1]);
    ServerMoves(l, sc, s, p', Next(o).value, g.priv, fs[1]);
    ToServer(l, sc, pc, s, p', Next(o).value, fs[1..], s', q);
    Closing(l, sc, pc, s', p', fs[1..][1..]);
  }

  /** Offer, selection and keys together: what both sides then hold. */
  lemma Establishes(l: Lib, sc: ServerConfig, pc: PeerConfig, id: string, g: Fresh, f: Fresh, s0: ServerState,
          o: Wire, s: ServerState, p: PeerState, w: Wire, r: Wire, sv: ServerState, pr: PeerState)
    requires Offered(l, sc, pc, id, s0, o) && Selected(l, sc, pc, s0, p, w) && Keyed(l, s, p, r, g)
    requires pr == Shared(l, p, g, f) && sv.m.priv == Some(g.priv)
    ensures Established(l, sc, pc, id, g, f, sv, pr)
  {
  }

  lemma FromOffered(l: Lib, sc: ServerConfig, pc: PeerConfig, id: string, s: ServerState, w: Wire, fs: seq<Fresh>)
    requires ScalarLaws(l) && DhLaws(l) && Compatible(sc, pc) && pc.nai != "" && Offered(l, sc, pc, id, s, w)
    requires |fs| >= 5
    ensures var e := Relay(l, sc, pc, s, NewPeer(pc), Some(w), true, fs);
            && Met(e.sv, e.pr) && e.delivered == 5 && e.left.None?
            && Established(l, sc, pc, id, fs[1], fs[2], e.sv, e.pr)
  {
    var p := NewPeer(pc);
    var (p', o) := PeerReceive(l, pc, p, w, fs[0]);
    PeerSelects(l, sc, pc, id, s, w, fs[0]);
    ToPeer(l, sc, pc, s, p, w, fs, p', o);
    var (s', q) := ServerReceive(l, sc, s, Next(o).value, fs[1]);
    ServerAdopts(l, sc, pc, id, s, p', w, Next(o).value, fs[1]);
    ToServer(l, sc, pc, s, p', Next(o).value, fs[1..], s', q);
    var rest := fs[1..][1..];
    FromKeyed(l, sc, pc, s', p', Next(q).value, fs[1], rest);
    assert rest[0] == fs[2];
    var e := Relay(l, sc, pc, s', p', Next(q), true, rest);
    Establishes(l, sc, pc, id, fs[1], fs[2], s, w, s', p', Next(o).value, Next(q).value, e.sv, e.pr);
  }

  lemma FromRefused(l: Lib, sc: ServerConfig, pc: PeerConfig, id: string, s: ServerState, w: Wire, fs: seq<Fresh>)
    requires ScalarLaws(l) && !Compatible(sc, pc) && pc.nai != "" && Offered(l, sc, pc, id, s, w) && |fs| >= 2
    ensures var e := Relay(l, sc, pc, s, NewPeer(pc), Some(w), true, fs);
            e.sv.state == UNREGISTERED && e.pr.state == UNREGISTERED && e.delivered == 2 && e.left.None?
  {
    var p := NewPeer(pc);
    var (p', o) := PeerReceive(l, pc, p, w, fs[0]);
    PeerRefuses(l, sc, pc, id, s, w, fs[0]);
    ToPeer(l, sc, pc, s, p, w, fs, p', o);
    var (s', q) := ServerReceive(l, sc, s, Next(o).value, fs[1]);
    ToServer(l, sc, pc, s, p', Next(o).value, fs[1..], s', q);
  }

  /** The first two messages: the peer greets, the server offers. */
  lemma Greeting(l: Lib, sc: ServerConfig, pc: PeerConfig, fs: seq<Fresh>) returns (s: ServerState, w: Wire)
    requires ScalarLaws(l) && pc.nai != "" && |fs| >= 2
    ensures Offered(l, sc, pc, fs[1].peerId, s, w)
    ensures var e := Relay(l, sc, pc, s, NewPeer(pc), Some(w), true, fs[2..]);
            Conversation(l, sc, pc, NEW_SERVER, NewPeer(pc), fs) == e.(delivered := e.delivered + 2)
  {
    var p := NewPeer(pc);
    PeerSaysHello(l, pc, fs[0]);
    ToPeer(l, sc, pc, NEW_SERVER, p, START, fs, p, Sent(Hello(l, pc), UNREGISTERED));
    var (s', q) := ServerReceive(l, sc, NEW_SERVER, Hello(l, pc), fs[1]);
    ServerOffers(l, sc, pc, fs[1]);
    ToServer(l, sc, pc, NEW_SERVER, p, Hello(l, pc), fs[1..], s', q);
    assert fs[1..][1..] == fs[2..];
    s, w := s', Next(q).value;
  }

  /**
   * The Initial Exchange, for every pair of configurations: seven messages to Waiting with
   * equal transcripts, identities, nonces and secrets, each of them as the configurations and the
   * fresh values say, or four messages and no progress, and which of the two is decided by the
   * configurations alone.
   */
  lemma InitialExchange(l: Lib, s0: ServerConfig, p0: PeerConfig, fs: seq<Fresh>)
    requires ScalarLaws(l) && DhLaws(l) && |fs| >= 7
    ensures var sc, pc := ServerDefaults(s0), PeerDefaults(p0);
            var e := Conversation(l, sc, pc, NEW_SERVER, NewPeer(pc), fs);
            && e.left.None?
            && (Compatible(sc, pc) ==>
                  && Met(e.sv, e.pr) && e.delivered == 7
                  && Established(l, sc, pc, fs[1].peerId, fs[3], fs[4], e.sv, e.pr))
            && (!Compatible(sc, pc) ==> e.sv.state == UNREGISTERED && e.pr.state == UNREGISTERED && e.delivered == 4)
  {
    var sc, pc := ServerDefaults(s0), PeerDefaults(p0);
    var s, w := Greeting(l, sc, pc, fs);
    if Compatible(sc, pc) {
      FromOffered(l, sc, pc, fs[1].peerId, s, w, fs[2..]);
    } else {
      FromRefused(l, sc, pc, fs[1].peerId, s, w, fs[2..]);
    }
  }

  // ---- Reconnecting before the out-of-band step ----

  function Report(l: Lib, p: PeerState): Wire {
    EMPTY.(typ := Some(1), peerState := Some(p.state), nai := l.rawStr(p.m.nai),
           peerId := if p.m.peerId != "" then l.rawStr(p.m.peerId) else "")
  }

  function Wait(l: Lib, m: Method): Wire {
    EMPTY.(typ := Some(4), peerId := l.rawStr(m.peerId))
  }

  /** Told that the peer waits too, the server asks it to go on waiting and changes nothing else. */
  lemma ServerAsksToWait(l: Lib, sc: ServerConfig, s: ServerState, p: PeerState, f: Fresh)
    requires ScalarLaws(l) && Met(s, p)
    ensures ServerReceive(l, sc, s, Report(l, p), f) == (s.(peerState := WAITING), Sent(Wait(l, s.m), WAITING))
  {
    var nai := p.m.nai;
    assert l.toStr(l.rawStr(nai)) == Some(nai);
  }

  lemma ServerEndsTheWait(l: Lib, sc: ServerConfig, s: ServerState, f: Fresh)
    requires ScalarLaws(l)
    ensures Next(ServerReceive(l, sc, s, Wait(l, s.m), f).1) == Some(Result(EAP_FAILURE))
    ensures ServerReceive(l, sc, s, Wait(l, s.m), f).0 == s
  {
    var id := s.m.peerId;
    assert l.toStr(l.rawStr(id)) == Some(id);
  }

  /**
   * A conversation before the Noob is carried: five messages, none of them a new offer, and both
   * sides are where they were, with the same transcript, PeerId, nonces and secret.
   */
  lemma WaitingConversation(l: Lib, sc: ServerConfig, pc: PeerConfig, s: ServerState, p: PeerState, fs: seq<Fresh>)
    requires ScalarLaws(l) && Met(s, p) && |fs| >= 5
    ensures Conversation(l, sc, pc, s, p, fs) == Ended(s.(peerState := WAITING), p, 5, None)
  {
    var s1, w := s.(peerState := WAITING), Wait(l, s.m);
    ToPeer(l, sc, pc, s, p, START, fs, p, Sent(Report(l, p), WAITING));
    ServerAsksToWait(l, sc, s, p, fs[1]);
    ToServer(l, sc, pc, s, p, Report(l, p), fs[1..], s1, Sent(w, WAITING));
    assert fs[1..][1..] == fs[2..] && fs[2..][1..] == fs[3..] && fs[3..][1..] == fs[4..];
    ToPeer(l, sc, pc, s1, p, w, fs[2..], p, Sent(w, WAITING));
    ServerEndsTheWait(l, sc, s1, fs[3]);
    ToServer(l, sc, pc, s1, p, w, fs[3..], s1, ServerReceive(l, sc, s1, w, fs[3]).1);
    Closing(l, sc, pc, s1, p, fs[4..]);
  }

  /** One conversation after another. */
  function Reconnect(l: Lib, sc: ServerConfig, pc: PeerConfig, s: ServerState, p: PeerState, ws: seq<seq<Fresh>>): Ended
    decreases |ws|
  {
    if ws == [] then Ended(s, p, 0, None)
    else
      var e := Conversation(l, sc, pc, s, p, ws[0]);
      var r := Reconnect(l, sc, pc, e.sv, e.pr, ws[1..]);
      r.(delivered := e.delivered + r.delivered)
  }

  /** Any number of them before the Noob is carried. */
  lemma {:induction false} WaitingChangesNothing(l: Lib, sc: ServerConfig, pc: PeerConfig, s: ServerState, p: PeerState,
          ws: seq<seq<Fresh>>)
    requires ScalarLaws(l) && Met(s, p) && forall k | 0 <= k < |ws| :: |ws[k]| >= 5
    ensures var seen := if ws == [] then s.peerState else WAITING;
            && Reconnect(l, sc, pc, s, p, ws) == Ended(s.(peerState := seen), p, 5 * |ws|, None)
            && Met(s.(peerState := seen), p)
    decreases |ws|
  {
    if ws != [] {
      WaitingConversation(l, sc, pc, s, p, ws[0]);
      WaitingChangesNothing(l, sc, pc, s.(peerState := WAITING), p, ws[1..]);
    }
  }

  // ---- The out-of-band step and the Completion Exchange ----

  /** Both sides hold the Noob; the receiver of the out-of-band message has moved on. */
  ghost predicate Carried(l: Lib, s: ServerState, p: PeerState) {
    && !p.verified && s.dirp == p.dirp && 1 <= p.dirp <= 2 && s.csp == p.csp && SupportedSuite(p.csp)
    && s.state == (if p.dirp == 1 then OOB_RECEIVED else WAITING)
    && p.state == (if p.dirp == 2 then OOB_RECEIVED else WAITING)
    && s.m.suite.Some? && |s.m.noob| == 16 && s.m.noobId.Some? && s.m.nai != ""
    && s.m.(priv := None) == p.m.(priv := None)
  }

  /** Server to peer: the message a waiting server shows is accepted by the peer that met it. */
  lemma ServerToPeer(l: Lib, s: ServerState, p: PeerState, noob: Bytes)
    requires ScalarLaws(l) && Met(s, p) && p.dirp == 2 && |noob| == 16
    ensures var (s', msg) := ServerOobOutput(l, s, noob);
            msg.Some? && PeerOobInput(l, p, msg.value).1 && Carried(l, s', PeerOobInput(l, p, msg.value).0)
    ensures var p' := PeerOobInputNoob(l, p, noob);
            p'.1 && Carried(l, ServerOobOutput(l, s, noob).0, p'.0)
  {
    assert l.unb64(l.b64(noob)) == Some(noob);
    assert SetNoob(l, s.m, noob).(priv := None) == SetNoob(l, p.m, noob).(priv := None);
  }

  lemma PeerToServer(l: Lib, s: ServerState, p: PeerState, noob: Bytes)
    requires ScalarLaws(l) && Met(s, p) && p.dirp == 1 && |noob| == 16
    ensures var (p', msg) := PeerOobOutput(l, p, noob);
            msg.Some? && ServerOobInput(l, s, msg.value).1 && Carried(l, ServerOobInput(l, s, msg.value).0, p')
  {
    assert l.unb64(l.b64(noob)) == Some(noob);
    assert SetNoob(l, s.m, noob).(priv := None) == SetNoob(l, p.m, noob).(priv := None);
  }

  lemma PeerReports(l: Lib, pc: PeerConfig, s: ServerState, p: PeerState, f: Fresh)
    requires Carried(l, s, p)
    ensures PeerReceive(l, pc, p, START, f) == (p, Sent(Report(l, p), p.state))
  {
  }

  /** The server has derived its keys and asks for the Completion. */
  ghost predicate Asking(l: Lib, s: ServerState, p: PeerState, w: Wire) {
    && s.m.material == Some(Material(p.m)) && Carried(l, s.(m := s.m.(material := p.m.material)), p)
    && w == EMPTY.(typ := Some(6), peerId := l.rawStr(p.m.peerId), noobId := p.m.noobId,
                   macs := Some(ServerTag(l, Material(p.m), p.m.ins)))
  }

  /** The server asks which Noob the peer accepted. */
  ghost predicate Probing(l: Lib, s: ServerState, p: PeerState, w: Wire) {
    Carried(l, s, p) && w == EMPTY.(typ := Some(5), peerId := l.rawStr(p.m.peerId))
  }

  lemma ServerCompletes(l: Lib, sc: ServerConfig, s: ServerState, p: PeerState, f: Fresh)
    requires ScalarLaws(l) && Carried(l, s, p)
    ensures var (s', o) := ServerReceive(l, sc, s, Report(l, p), f);
            && Next(o).Some?
            && (p.dirp == 1 ==> Asking(l, s', p, Next(o).value))
            && (p.dirp == 2 ==> Probing(l, s', p, Next(o).value))
  {
    var id, nai := p.m.peerId, p.m.nai;
    assert l.toStr(l.rawStr(id)) == Some(id) && l.toStr(l.rawStr(nai)) == Some(nai);
    assert Material(s.m) == Material(p.m);
  }

  /** Both Registered with this association, key included. */
  ghost predicate Joined(s: ServerState, p: PeerState, a: Association) {
    s.state == REGISTERED && p.state == REGISTERED && s.m.registered == Some(a) && p.m.registered == Some(a)
  }

  /** What they register: PeerId, NAI, suite, and Kz derived from all that was exchanged. */
  function Agreement(p: PeerState): Association {
    Association(p.m.peerId, p.m.nai, p.csp, Key(Kz, Material(p.m)))
  }

  lemma PeerVerifies(l: Lib, pc: PeerConfig, s: ServerState, p: PeerState, w: Wire, f: Fresh)
    requires Asking(l, s, p, w)
    ensures var (p', o) := PeerReceive(l, pc, p, w, f);
            && p' == p.(verified := true, m := p.m.(material := Some(Material(p.m))))
            && Next(o) == Some(EMPTY.(typ := Some(6), peerId := l.rawStr(p.m.peerId),
                                      macp := Some(PeerTag(l, Material(p.m), p.m.ins))))
  {
  }

  lemma ServerVerifies(l: Lib, sc: ServerConfig, s: ServerState, p: PeerState, a: Wire, w: Wire, f: Fresh)
    requires ScalarLaws(l) && Asking(l, s, p, a) && f.saved
    requires w == EMPTY.(typ := Some(6), peerId := l.rawStr(p.m.peerId),
                         macp := Some(PeerTag(l, Material(p.m), p.m.ins)))
    ensures var (s', o) := ServerReceive(l, sc, s, w, f);
            && s'.state == REGISTERED && Next(o) == Some(Result(EAP_SUCCESS))
            && s'.m.registered == Some(Agreement(p))
  {
    var id := p.m.peerId;
    assert l.toStr(l.rawStr(id)) == Some(id);
  }

  lemma FromAsking(l: Lib, sc: ServerConfig, pc: PeerConfig, s: ServerState, p: PeerState, w: Wire, fs: seq<Fresh>)
    requires ScalarLaws(l) && Asking(l, s, p, w) && |fs| >= 3 && fs[1].saved && fs[2].saved
    ensures var e := Relay(l, sc, pc, s, p, Some(w), true, fs);
            Joined(e.sv, e.pr, Agreement(p)) && e.delivered == 3 && e.left.None?
  {
    var (p', o) := PeerReceive(l, pc, p, w, fs[0]);
    PeerVerifies(l, pc, s, p, w, fs[0]);
    ToPeer(l, sc, pc, s, p, w, fs, p', o);
    var (s', q) := ServerReceive(l, sc, s, Next(o).value, fs[1]);
    ServerVerifies(l, sc, s, p, w, Next(o).value, fs[1]);
    ToServer(l, sc, pc, s, p', Next(o).value, fs[1..], s', q);
    assert fs[1..][1..] == fs[2..];
    var (p'', r) := PeerReceive(l, pc, p', Result(EAP_SUCCESS), fs[2]);
    ToPeer(l, sc, pc, s', p', Result(EAP_SUCCESS), fs[2..], p'', r);
  }

  lemma FromProbing(l: Lib, sc: ServerConfig, pc: PeerConfig, s: ServerState, p: PeerState, w: Wire, fs: seq<Fresh>)
    requires ScalarLaws(l) && Probing(l, s, p, w) && |fs| >= 5 && fs[3].saved && fs[4].saved
    ensures var e := Relay(l, sc, pc, s, p, Some(w), true, fs);
            Joined(e.sv, e.pr, Agreement(p)) && e.delivered == 5 && e.left.None?
  {
    var (p', o) := PeerReceive(l, pc, p, w, fs[0]);
    assert p' == p;
    ToPeer(l, sc, pc, s, p, w, fs, p', o);
    var id := p.m.peerId;
    assert l.toStr(l.rawStr(id)) == Some(id);
    var (s', q) := ServerReceive(l, sc, s, Next(o).value, fs[1]);
    assert Material(s.m) == Material(p.m);
    ToServer(l, sc, pc, s, p, Next(o).value, fs[1..], s', q);
    assert fs[1..][1..] == fs[2..];
    FromAsking(l, sc, pc, s', p, Next(q).value, fs[2..]);
  }

  /** After the out-of-band step one more conversation registers both sides with the same key. */
  lemma CompletionExchange(l: Lib, sc: ServerConfig, pc: PeerConfig, s: ServerState, p: PeerState, fs: seq<Fresh>)
    requires ScalarLaws(l) && Carried(l, s, p) && |fs| >= 7 && forall k | 0 <= k < |fs| :: fs[k].saved
    ensures var e := Conversation(l, sc, pc, s, p, fs);
            Joined(e.sv, e.pr, Agreement(p)) && e.delivered == (if p.dirp == 1 then 5 else 7) && e.left.None?
  {
    PeerReports(l, pc, s, p, fs[0]);
    ToPeer(l, sc, pc, s, p, START, fs, p, Sent(Report(l, p), p.state));
    var (s', q) := ServerReceive(l, sc, s, Report(l, p), fs[1]);
    ServerCompletes(l, sc, s, p, fs[1]);
    ToServer(l, sc, pc, s, p, Report(l, p), fs[1..], s', q);
    assert fs[1..][1..] == fs[2..];
    if p.dirp == 1 {
      FromAsking(l, sc, pc, s', p, Next(q).value, fs[2..]);
    } else {
      FromProbing(l, sc, pc, s', p, Next(q).value, fs[2..]);
    }
  }

  /** The out-of-band step the negotiated direction calls for. */
  function OutOfBand(l: Lib, s: ServerState, p: PeerState, noob: Bytes): (ServerState, PeerState) {
    if p.dirp == 1 then
      var (p', msg) := PeerOobOutput(l, p, noob);
      (if msg.Some? then ServerOobInput(l, s, msg.value).0 else s, p')
    else
      var (s', msg) := ServerOobOutput(l, s, noob);
      (s', if msg.Some? then PeerOobInput(l, p, msg.value).0 else p)
  }

  /** Carrying the Noob in the negotiated direction leaves both sides holding it, in one exchange. */
  lemma NoobIsCarried(l: Lib, s: ServerState, p: PeerState, noob: Bytes)
    requires ScalarLaws(l) && Met(s, p) && |noob| == 16
    ensures var (s', p') := OutOfBand(l, s, p, noob);
            && Carried(l, s', p') && p'.dirp == p.dirp && p'.csp == p.csp && p'.m == SetNoob(l, p.m, noob)
  {
    if p.dirp == 1 { PeerToServer(l, s, p, noob); } else { ServerToPeer(l, s, p, noob); }
    assert l.unb64(l.b64(noob)) == Some(noob);
  }

  /**
   * Pairing from scratch: two fresh roles, one conversation, any number of reconnections, one Noob
   * carried out of band, a last conversation. Whenever the configurations are compatible both roles
   * end Registered with the same association, whose Kz is derived from the shared secret, the two
   * nonces and the Noob, in 12 or 14 messages and five for every reconnection.
   */
  lemma PairingCompletes(l: Lib, s0: ServerConfig, p0: PeerConfig, noob: Bytes, fs: seq<Fresh>, ws: seq<seq<Fresh>>,
          gs: seq<Fresh>)
    requires ScalarLaws(l) && DhLaws(l) && |noob| == 16 && |fs| >= 7 && |gs| >= 7
    requires (forall k | 0 <= k < |gs| :: gs[k].saved) && forall k | 0 <= k < |ws| :: |ws[k]| >= 5
    ensures var sc, pc := ServerDefaults(s0), PeerDefaults(p0);
            var i := Conversation(l, sc, pc, NEW_SERVER, NewPeer(pc), fs);
            var j := Reconnect(l, sc, pc, i.sv, i.pr, ws);
            var (s, p) := OutOfBand(l, j.sv, j.pr, noob);
            var e := Conversation(l, sc, pc, s, p, gs);
            Compatible(sc, pc) ==>
              && Established(l, sc, pc, fs[1].peerId, fs[3], fs[4], i.sv, i.pr) && i.pr.m.z.Some?
              && Joined(e.sv, e.pr, Association(fs[1].peerId, Nai(sc, pc), i.pr.csp,
                          Key(Kz, i.pr.m.z.value + FixedInfo(fs[4].nonce, fs[3].nonce, noob))))
              && i.delivered + j.delivered + e.delivered == 5 * |ws| + (if i.pr.dirp == 1 then 12 else 14)
  {
    var sc, pc := ServerDefaults(s0), PeerDefaults(p0);
    InitialExchange(l, s0, p0, fs);
    if Compatible(sc, pc) {
      var i := Conversation(l, sc, pc, NEW_SERVER, NewPeer(pc), fs);
      WaitingChangesNothing(l, sc, pc, i.sv, i.pr, ws);
      var j := Reconnect(l, sc, pc, i.sv, i.pr, ws);
      NoobIsCarried(l, j.sv, j.pr, noob);
      var (s, p) := OutOfBand(l, j.sv, j.pr, noob);
      CompletionExchange(l, sc, pc, s, p, gs);
    }
  }
}
