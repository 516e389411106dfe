/**
 * What each EAP-NOOB message is answered with, for every state it can meet: the
 * server's reply to a discovery by both sides' states, what a message under another
 * PeerId can do, and what the peer's answers disclose and leave alone.
 */
module NoobReplies {
  import opened Options
  import opened Kdf
  import opened Noob
  import opened NoobGuards

  /** The Type of the message sent; errors are Type 0. */
  function TypeSent(o: Outcome): Option<int> {
    if o.Outcome? && o.send.Some? && o.send.value.Wire? then o.send.value.typ else None
  }

  predicate Refuses(o: Outcome, code: int) {
    o.Outcome? && TypeSent(o) == Some(0) && o.send.value.error == Some(code) && o.err == Some(code)
    && o.done && !o.success
  }

  /** The message carries the PeerId of this association, once there is one. */
  predicate ForUs(l: Lib, peerId: string, w: Wire)
    requires w.Wire?
  {
    peerId != "" ==> l.toStr(w.peerId).Some? && l.toStr(w.peerId).value == peerId
  }

  predicate Typed(w: Wire, typ: int) {
    w.Wire? && w.error.None? && w.typ == Some(typ)
  }

  predicate Discovery(w: Wire) {
    Typed(w, 1) && w.peerState.Some?
  }

  /** The states in which the two sides have a Noob between them. */
  predicate NoobCarried(ss: int, ps: int) {
    (ss == WAITING && ps == OOB_RECEIVED) || (ss == OOB_RECEIVED && (ps == WAITING || ps == OOB_RECEIVED))
  }

  /** No exchange fits both states. */
  predicate Mismatched(ss: int, ps: int) {
    ss != UNREGISTERED && ps != UNREGISTERED && !(ss == WAITING && ps == WAITING) && !NoobCarried(ss, ps)
  }

  /** What the server keeps of an exchange already under way: everything but the reported state and the NAI. */
  predicate SameExchange(s: ServerState, s': ServerState) {
    s'.(peerState := s.peerState, m := s'.m.(nai := s.m.nai)) == s
  }

  /**
   * The server's reply to a discovery, for every pair of its own and the reported state: Type 2 under
   * the fresh PeerId if either side is Unregistered, Type 4 if both wait, the Completion (Type 5 if the
   * peer received the Noob, else Type 6 with MACs) if a Noob is between them, and error 2002 otherwise.
   */
  lemma DiscoveryReply(l: Lib, cfg: ServerConfig, s: ServerState, w: Wire, f: Fresh)
    requires ServerGuard(s) && Discovery(w)
    ensures var (s', o) := ServerReceive(l, cfg, s, w, f);
            var ps := w.peerState.value;
            && s'.state == s.state && s'.peerState == ps && s'.m.registered == s.m.registered
            && (s.state == UNREGISTERED || ps == UNREGISTERED ==> TypeSent(o) == Some(2) && s'.m.peerId == f.peerId)
            && (s.state == WAITING && ps == WAITING ==> TypeSent(o) == Some(4) && SameExchange(s, s'))
            && (NoobCarried(s.state, ps) ==>
                  if !ForUs(l, s.m.peerId, w) then Refuses(o, ERR_PEER_ID) && SameExchange(s, s')
                  else if s.m.noob == [] then Refuses(o, ERR_STATE) && SameExchange(s, s')
                  else if ps == OOB_RECEIVED then TypeSent(o) == Some(5) && SameExchange(s, s')
                  else TypeSent(o) == Some(6) && SendsServerTag(o) && SameExchange(DeriveFor(s), s'))
            && (Mismatched(s.state, ps) ==> Refuses(o, ERR_STATE) && SameExchange(s, s'))
  {
  }

  /** The same exchange with the keys for its Noob. */
  function DeriveFor(s: ServerState): ServerState {
    s.(m := s.m.(material := Some(Material(s.m))))
  }

  /**
   * A message under another PeerId moves nothing: whatever its type past discovery, the server's state
   * is untouched and it answers 2001, or 2002 where it was not expecting that type at all.
   */
  lemma OtherPeerIdIsRefused(l: Lib, cfg: ServerConfig, s: ServerState, w: Wire, f: Fresh)
    requires w.Wire? && w.error.None? && w.typ.Some? && 2 <= w.typ.value <= 6 && !ForUs(l, s.m.peerId, w)
    ensures var (s', o) := ServerReceive(l, cfg, s, w, f);
            && s' == s
            && Refuses(o, if w.typ == Some(3) && !(s.state == UNREGISTERED && s.m.suite.Some? && s.m.priv.Some?)
                          then ERR_STATE
                          else if w.typ == Some(6) && !((s.state == WAITING || s.state == OOB_RECEIVED)
                                                        && s.m.suite.Some? && s.m.material.Some?)
                          then ERR_STATE else ERR_PEER_ID)
  {
  }

  predicate Request(w: Wire, typ: int) {
    Typed(w, typ) && w.eap == ""
  }

  /**
   * What the peer discloses without a verified MAC: its state, identity and the NoobId it holds, under
   * its PeerId (left out while Unregistered), and nothing it keeps changes but the verified mark.
   */
  lemma PeerDiscloses(l: Lib, cfg: PeerConfig, p: PeerState, w: Wire, f: Fresh)
    requires Request(w, 1) || Request(w, 4) || Request(w, 5)
    ensures var (p', o) := PeerReceive(l, cfg, p, w, f);
            && p' == p.(verified := false)
            && (w.typ == Some(5) && p.m.noobId.None? ==> Refuses(o, ERR_STATE))
            && (w.typ != Some(5) || p.m.noobId.Some? ==>
                  && TypeSent(o) == w.typ && !SendsPeerTag(o)
                  && (w.typ == Some(1) ==> && o.send.value.peerState == Some(p.state)
                                           && o.send.value.nai == l.rawStr(p.m.nai))
                  && o.send.value.noobId == (if w.typ == Some(5) then p.m.noobId else None)
                  && o.send.value.peerId == if w.typ == Some(1) && (p.state == UNREGISTERED || p.m.peerId == "")
                                            then "" else l.rawStr(p.m.peerId))
  {
  }

  // ---- Key exchange and completion, answer by answer ----

  /** Both sides take keys exactly once, while Unregistered with a suite settled, and a bad key changes nothing. */
  lemma KeysAreTakenOnce(l: Lib, sc: ServerConfig, pc: PeerConfig, s: ServerState, p: PeerState, w: Wire, f: Fresh)
    requires Typed(w, 3) && ForUs(l, s.m.peerId, w)
    ensures var (s', o) := ServerReceive(l, sc, s, w, f);
            if s.state != UNREGISTERED || s.m.suite.None? || s.m.priv.None? then s' == s && Refuses(o, ERR_STATE)
            else
              var z, np := l.dh(s.m.suite.value, s.m.priv.value, w.pkp), NonceOf(l, w.np);
              if z.None? || np.None? then s' == s && Refuses(o, ERR_DATA)
              else s'.state == WAITING && Ends(o, EAP_FAILURE) && s'.m.z == z && s'.m.np == np.value
                   && s'.m.ins == s.m.ins.(pkp := w.pkp, np := w.np)
    ensures var (p', o) := PeerReceive(l, pc, p, w, f);
            if w.eap != "" then p'.m.z == p.m.z
            else if p.state != UNREGISTERED || p.m.suite.None? then p' == p.(verified := false) && Refuses(o, ERR_STATE)
            else
              var z, ns := l.dh(p.m.suite.value, f.priv, w.pks), NonceOf(l, w.ns);
              if z.None? || ns.None? then p' == p.(verified := false) && Refuses(o, ERR_DATA)
              else p'.state == WAITING && TypeSent(o) == Some(3) && p'.m.z == z && p'.m.ns == ns.value
                   && o.send.value.pkp == p'.m.ins.pkp == l.jwk(p.m.suite.value, f.priv)
                   && p'.m.ins.pks == w.pks && p'.m.ins.ns == w.ns && p'.m.np == f.nonce
  {
  }

  /** The conversation is over and the other side is told only how it ended. */
  predicate Ends(o: Outcome, kind: string) {
    o.Outcome? && o.send == Some(Result(kind)) && o.done && o.err.None?
  }

  /** The server's MACs go out for the NoobId it recorded and no other. */
  lemma NoobIdReply(l: Lib, cfg: ServerConfig, s: ServerState, w: Wire, f: Fresh)
    requires Typed(w, 5) && ForUs(l, s.m.peerId, w)
    ensures var (s', o) := ServerReceive(l, cfg, s, w, f);
            && (SendsServerTag(o) <==> w.noobId.Some? && w.noobId == s.m.noobId)
            && (SendsServerTag(o) ==> TypeSent(o) == Some(6) && s' == DeriveFor(s))
            && (!SendsServerTag(o) ==> s' == s && Refuses(o, if w.noobId.None? then ERR_DATA else ERR_OOB_ID))
  {
  }

  /** The peer answers MACs exactly if it holds that Noob and they cover its own transcript under its own keys. */
  lemma MacsReply(l: Lib, cfg: PeerConfig, p: PeerState, w: Wire, f: Fresh)
    requires Request(w, 6)
    ensures var (p', o) := PeerReceive(l, cfg, p, w, f);
            var held := p.m.noob != [] && w.noobId.Some? && w.noobId == p.m.noobId;
            && (SendsPeerTag(o) <==> held && w.macs == Some(ServerTag(l, Material(p.m), p.m.ins)))
            && (SendsPeerTag(o) ==> p'.verified && o.send.value.macp == Some(PeerTag(l, Material(p.m), p.m.ins)))
            && (!SendsPeerTag(o) ==>
                  && !p'.verified
                  && Refuses(o, if p.m.noob == [] then ERR_STATE
                                else if held && w.macs.Some? then ERR_HMAC
                                else if w.noobId.Some? && w.noobId != p.m.noobId then ERR_OOB_ID else ERR_DATA))
            && p'.state == p.state && p'.m.(material := p.m.material) == p.m
  {
  }

  /**
   * The server registers exactly for the MACp of its own keys and transcript while a completion is
   * open and the store saves the association; a store that fails leaves all as it was.
   */
  lemma MacpReply(l: Lib, cfg: ServerConfig, s: ServerState, w: Wire, f: Fresh)
    requires Typed(w, 6) && ForUs(l, s.m.peerId, w)
    ensures var (s', o) := ServerReceive(l, cfg, s, w, f);
            var open := (s.state == WAITING || s.state == OOB_RECEIVED) && s.m.suite.Some? && s.m.material.Some?;
            var proved := open && w.macp == Some(PeerTag(l, s.m.material.value, s.m.ins));
            && (s'.state == REGISTERED && s.state != REGISTERED <==> proved && f.saved)
            && (proved && f.saved ==> Ends(o, EAP_SUCCESS) && Succeeds(o) && s'.m.registered == Some(
                  Association(s.m.peerId, s.m.nai, s.csp, Key(Kz, s.m.material.value))))
            && (proved && !f.saved ==> s' == s && o == Fault)
            && (!proved ==> s' == s && Refuses(o, if !open then ERR_STATE else if w.macp.None? then ERR_DATA
                                                  else ERR_HMAC))
  {
  }

  /** Neither role can be answered with a MAC of its own kind, its own from earlier included. */
  lemma ReflectionIsRefused(l: Lib, sc: ServerConfig, pc: PeerConfig, s: ServerState, p: PeerState, w: Wire, f: Fresh,
          a: Bytes, i: MacInputs)
    requires w.Wire?
    ensures w.macp == Some(ServerTag(l, a, i)) ==> !Succeeds(ServerReceive(l, sc, s, w, f).1)
    ensures w.macs == Some(PeerTag(l, a, i)) ==> !PeerReceive(l, pc, p, w, f).0.verified
  {
  }

  // ---- A store that fails ----

  /**
   * The server can be asked again: the MACp that met a failed save registers it, with the same
   * association, as soon as the store works.
   */
  lemma FailedSaveCanBeRetried(l: Lib, cfg: ServerConfig, s: ServerState, w: Wire, bad: Fresh, good: Fresh)
    requires !bad.saved && good.saved
    ensures var (s', o) := ServerReceive(l, cfg, s, w, bad);
            && !Succeeds(o) && s'.m.registered == s.m.registered
            && (o == Fault <==> Succeeds(ServerReceive(l, cfg, s, w, good).1))
            && (o == Fault ==> ServerReceive(l, cfg, s', w, good) == ServerReceive(l, cfg, s, w, good))
  {
  }

  /**
   * The peer cannot: the result that met a failed save has used up the verified mark, and every further
   * success is refused until the server's MACs are verified anew.
   */
  lemma FailedSaveIsNotRetried(l: Lib, cfg: PeerConfig, p: PeerState, w: Wire, bad: Fresh, good: Fresh)
    requires !bad.saved && good.saved
    ensures var (p', o) := PeerReceive(l, cfg, p, w, bad);
            && !Succeeds(o) && p'.m.registered == p.m.registered
            && (o == Fault <==> Succeeds(PeerReceive(l, cfg, p, w, good).1))
            && (o == Fault ==> p' == p.(verified := false) && Refuses(PeerReceive(l, cfg, p', w, good).1, ERR_STATE))
  {
  }

  // ---- Messages that belong to no exchange ----

  /**
   * An unreadable message, one without a type and one of an unknown type are refused and change nothing
   * but the peer's verified mark; an error report ends the conversation without an answer.
   */
  lemma StrayReplies(l: Lib, sc: ServerConfig, pc: PeerConfig, s: ServerState, p: PeerState, w: Wire, f: Fresh)
    requires w.Wire? ==> w.eap == "" && (w.error.Some? || w.typ.None? || !(1 <= w.typ.value <= 6))
    ensures ServerReceive(l, sc, s, w, f).0 == s && PeerReceive(l, pc, p, w, f).0 == p.(verified := false)
    ensures forall o | o == ServerReceive(l, sc, s, w, f).1 || o == PeerReceive(l, pc, p, w, f).1 ::
              if w.Wire? && w.error.Some? then o.Outcome? && o.send.None? && o.done && !o.success && o.err == w.error
              else Refuses(o, if w.Malformed? || w.typ.None? then ERR_STRUCTURE else ERR_TYPE)
  {
  }
}
