/**
 * What an EAP-NOOB role settles on. Whatever messages arrive and in whatever order, the
 * version, suite and direction a role uses are ones its own configuration allows, the peer's
 * are ones it was offered, and the transcript under the MACs names them. What a server
 * accepts and what a peer answers in a negotiation is decided by that alone.
 */
module NoobPolicy {
  import opened Options
  import opened Kdf
  import opened Noob
  import opened NoobGuards
  import opened NoobReplies
  import opened NoobRelay

  // ---- What a configuration allows ----

  /** An empty list stands for version 1, or for both suites. */
  predicate VersionAllowed(versions: seq<int>, ver: int) {
    ver in versions || (versions == [] && ver == 1)
  }

  predicate SuiteAllowed(suites: seq<int>, suite: int) {
    1 <= suite <= 2 && (suite in suites || suites == [])
  }

  /** Bit 1 is peer to server, bit 2 server to peer; no direction stands for both. */
  predicate DirectionAllowed(dirs: int, dir: int) {
    match dir
    case 1 => dirs == 0 || dirs % 2 == 1
    case 2 => dirs == 0 || dirs / 2 % 2 == 1
    case 3 => dirs % 4 != 0 || dirs == 0
    case _ => false
  }

  predicate ServerAllows(c: ServerConfig, ver: int, suite: int, dir: int) {
    VersionAllowed(c.versions, ver) && SuiteAllowed(c.suites, suite) && DirectionAllowed(c.dirs, dir)
  }

  // ---- The server, under any calls ----

  ghost predicate ServerSettled(l: Lib, c: ServerConfig, s: ServerState) {
    && (s.m.suite.Some? ==>
          && ServerAllows(c, s.verp, s.csp, s.dirp) && s.m.suite == Some(s.csp)
          && l.toInt(s.m.ins.verp) == Some(s.verp) && l.toInt(s.m.ins.suitep) == Some(s.csp)
          && l.toInt(s.m.ins.dirp) == Some(s.dirp))
    && (s.m.registered.Some? ==> SuiteAllowed(c.suites, s.m.registered.value.suite))
  }

  /** A step that leaves the selection alone, saving at most an association under it. */
  ghost predicate SelectionKept(s: ServerState, s': ServerState) {
    && (s'.verp, s'.csp, s'.dirp, s'.m.suite) == (s.verp, s.csp, s.dirp, s.m.suite)
    && (s'.m.ins.verp, s'.m.ins.suitep, s'.m.ins.dirp) == (s.m.ins.verp, s.m.ins.suitep, s.m.ins.dirp)
    && (s'.m.registered == s.m.registered
        || (s.m.suite.Some? && s'.m.registered.Some? && s'.m.registered.value.suite == s.csp))
  }

  lemma ServerMessageKeeps(l: Lib, cfg: ServerConfig, s: ServerState, w: Wire, f: Fresh)
    requires !Typed(w, 2)
    ensures SelectionKept(s, ServerReceive(l, cfg, s, w, f).0)
  {
    if Discovery(w) {
      assert SelectionKept(Heard(l, s, w), Dispatch(l, cfg, Heard(l, s, w), w, f).0);
    }
  }

  lemma SelectionSettles(l: Lib, c: ServerConfig, s: ServerState, w: Wire, f: Fresh)
    requires ServerSettled(l, c, s) && w.Wire?
    ensures ServerSettled(l, c, OnNegotiation(l, ServerDefaults(c), s, w, f).0)
  {
    SelectionMeans(l, c, w);
  }

  lemma ServerCallSettled(l: Lib, c: ServerConfig, s: ServerState, a: Call)
    requires ServerSettled(l, c, s)
    ensures ServerSettled(l, c, ServerCall(l, ServerDefaults(c), s, a))
  {
    if a.Message? {
      if Typed(a.w, 2) {
        SelectionSettles(l, c, s, a.w, a.f);
      } else {
        ServerMessageKeeps(l, ServerDefaults(c), s, a.w, a.f);
      }
    }
  }

  /** The server's check of a selection, in terms of what its configuration allows. */
  lemma SelectionMeans(l: Lib, c: ServerConfig, w: Wire)
    requires w.Wire?
    ensures SelectionError(l, ServerDefaults(c), w) == 0 <==>
            && l.toInt(w.verp).Some? && l.toInt(w.suitep).Some? && l.toInt(w.dirp).Some?
            && ServerAllows(c, l.toInt(w.verp).value, l.toInt(w.suitep).value, l.toInt(w.dirp).value)
  {
    if l.toInt(w.dirp).Some? {
      var d, e := l.toInt(w.dirp).value, ServerDefaults(c).dirs;
      assert e % 4 == 2 * (e / 2 % 2) + e % 2;
    }
  }

  /**
   * After any calls a server that has settled has settled within its configuration, and on exactly
   * what its transcript names; an association it saved uses a suite of its own.
   */
  lemma {:induction false} ServerWithinPolicy(l: Lib, c: ServerConfig, calls: seq<Call>)
    ensures ServerSettled(l, c, ServerRun(l, ServerDefaults(c), calls))
    decreases |calls|
  {
    if calls != [] {
      var init := calls[..|calls| - 1];
      ServerWithinPolicy(l, c, init);
      ServerCallSettled(l, c, ServerRun(l, ServerDefaults(c), init), calls[|calls| - 1]);
    }
  }

  // ---- The peer, under any calls ----

  /** What the peer uses is in the offer recorded, and chosen from its own lists. */
  ghost predicate PeerSettled(l: Lib, c: PeerConfig, p: PeerState) {
    && (p.m.suite.Some? ==>
          && VersionAllowed(c.versions, p.verp) && SuiteAllowed(c.suites, p.csp) && p.m.suite == Some(p.csp)
          && l.toInts(p.m.ins.vers).Some? && p.verp in l.toInts(p.m.ins.vers).value
          && l.toInts(p.m.ins.suites).Some? && p.csp in l.toInts(p.m.ins.suites).value
          && l.toInt(p.m.ins.dirs).Some? && OfferedDirection(l.toInt(p.m.ins.dirs).value, c.preferDir, p.dirp)
          && p.m.ins.verp == l.rawInt(p.verp) && p.m.ins.suitep == l.rawInt(p.csp)
          && p.m.ins.dirp == l.rawInt(p.dirp))
    && (p.m.registered.Some? ==> SuiteAllowed(c.suites, p.m.registered.value.suite))
    && (p.verified ==> p.m.suite.Some?)
  }

  /** The one direction offered; where both are, the preferred one, or server to peer. */
  predicate OfferedDirection(dirs: int, prefer: int, dir: int) {
    1 <= dir <= 2 && (dirs == dir || (dirs == 3 && (dir == prefer || (dir == 2 && prefer != 1))))
  }

  ghost predicate ChoiceKept(p: PeerState, p': PeerState) {
    && (p'.verp, p'.csp, p'.dirp, p'.m.suite) == (p.verp, p.csp, p.dirp, p.m.suite)
    && (p'.m.ins.vers, p'.m.ins.suites, p'.m.ins.dirs) == (p.m.ins.vers, p.m.ins.suites, p.m.ins.dirs)
    && (p'.m.ins.verp, p'.m.ins.suitep, p'.m.ins.dirp) == (p.m.ins.verp, p.m.ins.suitep, p.m.ins.dirp)
    && (p'.m.registered == p.m.registered
        || (p.verified && p'.m.registered.Some? && p'.m.registered.value.suite == p.csp))
    && (p'.verified ==> p.m.noob != [])
  }

  lemma PeerMessageKeeps(l: Lib, cfg: PeerConfig, p: PeerState, w: Wire, f: Fresh)
    requires !Request(w, 2)
    ensures ChoiceKept(p, PeerReceive(l, cfg, p, w, f).0)
  {
  }

  lemma ChoiceSettles(l: Lib, c: PeerConfig, p: PeerState, w: Wire)
    requires PeerSettled(l, c, p) && !p.verified && w.Wire?
    ensures PeerSettled(l, c, OnNegotiationRequest(l, PeerDefaults(c), p, w).0)
  {
    if OfferError(l, PeerDefaults(c), w) == 0 {
      BestVersionIsGreatest(l.toInts(w.vers).value, PeerDefaults(c).versions);
      FirstSupportedIsFirst(l.toInts(w.suites).value, PeerDefaults(c).suites);
    }
  }

  lemma PeerCallSettled(l: Lib, c: PeerConfig, p: PeerState, a: Call)
    requires PeerGuard(p) && PeerSettled(l, c, p)
    ensures PeerSettled(l, c, PeerCall(l, PeerDefaults(c), p, a))
  {
    if a.Message? {
      if Request(a.w, 2) {
        ChoiceSettles(l, c, p.(verified := false), a.w);
      } else {
        PeerMessageKeeps(l, PeerDefaults(c), p, a.w, a.f);
      }
    }
  }

  /** The same for a peer: whatever it was sent, it uses what it was offered and itself allows. */
  lemma {:induction false} PeerWithinPolicy(l: Lib, c: PeerConfig, calls: seq<Call>)
    ensures PeerSettled(l, c, PeerRun(l, PeerDefaults(c), calls))
    decreases |calls|
  {
    if calls != [] {
      var init := calls[..|calls| - 1];
      PeerWithinPolicy(l, c, init);
      PeerRunForward(l, PeerDefaults(c), init, 0);
      PeerCallSettled(l, c, PeerRun(l, PeerDefaults(c), init), calls[|calls| - 1]);
    }
  }

  // ---- A negotiation's two answers ----

  /**
   * A selection is answered with the server's key and nonce exactly if it is for this PeerId, readable
   * and allowed; the first entry at fault names the error, and a refusal changes nothing.
   */
  lemma SelectionReply(l: Lib, c: ServerConfig, s: ServerState, w: Wire, f: Fresh)
    requires Typed(w, 2) && ForUs(l, s.m.peerId, w)
    ensures var (s', o) := ServerReceive(l, ServerDefaults(c), s, w, f);
            var v, cs, d := l.toInt(w.verp), l.toInt(w.suitep), l.toInt(w.dirp);
            if v.None? then s' == s && Refuses(o, ERR_DATA)
            else if !VersionAllowed(c.versions, v.value) then s' == s && Refuses(o, ERR_VERSION)
            else if cs.None? then s' == s && Refuses(o, ERR_DATA)
            else if !SuiteAllowed(c.suites, cs.value) then s' == s && Refuses(o, ERR_SUITE)
            else if d.None? then s' == s && Refuses(o, ERR_DATA)
            else if !DirectionAllowed(c.dirs, d.value) then s' == s && Refuses(o, ERR_DIRECTION)
            else TypeSent(o) == Some(3) && o.send.value.pks == l.jwk(cs.value, f.priv)
                 && s'.m.priv == Some(f.priv) && s'.m.ns == f.nonce && s'.state == s.state
  {
    SelectionMeans(l, c, w);
  }

  /** The peer's lists and the offer have something in common. */
  ghost predicate OffersChoice(l: Lib, c: PeerConfig, w: Wire)
    requires w.Wire?
  {
    && l.toInts(w.vers).Some? && (exists v | v in l.toInts(w.vers).value :: v >= 0 && VersionAllowed(c.versions, v))
    && l.toInts(w.suites).Some? && (exists x | x in l.toInts(w.suites).value :: SuiteAllowed(c.suites, x))
    && l.toInt(w.dirs).Some? && 1 <= l.toInt(w.dirs).value <= 3
  }

  lemma OfferMeans(l: Lib, c: PeerConfig, w: Wire)
    requires w.Wire?
    ensures OfferError(l, PeerDefaults(c), w) == 0 <==> OffersChoice(l, c, w)
  {
    var pc := PeerDefaults(c);
    assert forall v :: VersionAllowed(c.versions, v) <==> v in pc.versions;
    assert forall x :: SuiteAllowed(c.suites, x) <==> x in pc.suites && SupportedSuite(x);
    if l.toInts(w.vers).Some? { BestVersionIsGreatest(l.toInts(w.vers).value, pc.versions); }
    if l.toInts(w.suites).Some? { FirstSupportedIsFirst(l.toInts(w.suites).value, pc.suites); }
  }

  /**
   * An offer is answered with a selection exactly if it is readable and leaves a choice; otherwise the
   * peer refuses it and goes on with whatever it had, PeerId apart.
   */
  lemma OfferReply(l: Lib, c: PeerConfig, p: PeerState, w: Wire, f: Fresh)
    requires Request(w, 2)
    ensures var (p', o) := PeerReceive(l, PeerDefaults(c), p, w, f);
            && (TypeSent(o) == Some(2) <==> l.toStr(w.peerId).Some? && OffersChoice(l, c, w))
            && (TypeSent(o) != Some(2) ==>
                  && TypeSent(o) == Some(0) && p'.(m := p'.m.(peerId := p.m.peerId)) == p.(verified := false))
  {
    OfferMeans(l, c, w);
  }

  // ---- Roles configured with nothing ----

  lemma DefaultsChoose(sc: ServerConfig, pc: PeerConfig, p: PeerState)
    requires Chosen(sc, pc, p)
    requires sc.versions == [1] && pc.versions == [1] && sc.suites == [2, 1] && pc.suites == [1, 2] && sc.dirs == 3
    ensures p.verp == 1 && p.csp == 2 && p.dirp == if pc.preferDir == 1 then 1 else 2
  {
    assert sc.suites[0] == 2;
  }

  /**
   * Two roles left to their defaults meet on version 1, P-256, server to peer (peer to server if the
   * peer prefers it), under the default NAI.
   */
  lemma DefaultsMeet(l: Lib, s0: ServerConfig, p0: PeerConfig, fs: seq<Fresh>)
    requires ScalarLaws(l) && DhLaws(l) && |fs| >= 7
    requires s0.versions == p0.versions == s0.suites == p0.suites == [] && s0.dirs == 0 && s0.newNai == p0.nai == ""
    ensures var e := Conversation(l, ServerDefaults(s0), PeerDefaults(p0), NEW_SERVER, NewPeer(PeerDefaults(p0)), fs);
            && Met(e.sv, e.pr) && e.pr.verp == 1 && e.pr.csp == 2 && e.pr.m.nai == "noob@eap-noob.arpa"
            && e.pr.dirp == if p0.preferDir == 1 then 1 else 2
  {
    var sc, pc := ServerDefaults(s0), PeerDefaults(p0);
    assert 1 in sc.versions && 2 in sc.suites;
    InitialExchange(l, s0, p0, fs);
    DefaultsChoose(sc, pc, Conversation(l, sc, pc, NEW_SERVER, NewPeer(pc), fs).pr);
  }

  /** The NAI both sides end with: the server's new one, else the peer's own, else the default. */
  lemma NaiOfMeeting(l: Lib, s0: ServerConfig, p0: PeerConfig, fs: seq<Fresh>)
    requires ScalarLaws(l) && DhLaws(l) && |fs| >= 7 && Compatible(ServerDefaults(s0), PeerDefaults(p0))
    ensures var e := Conversation(l, ServerDefaults(s0), PeerDefaults(p0), NEW_SERVER, NewPeer(PeerDefaults(p0)), fs);
            && e.sv.m.nai == e.pr.m.nai
            && e.pr.m.nai == if s0.newNai != "" then s0.newNai
                             else if p0.nai != "" then p0.nai else "noob@eap-noob.arpa"
  {
    InitialExchange(l, s0, p0, fs);
  }
}
