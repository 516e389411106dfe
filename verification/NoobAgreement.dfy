/**
 * Agreement over any network, and agreement on Kz. With ideal MACs, a registered
 * server means the peer answered under the same key with the same transcript, a
 * registered peer means the server asked under the same key with the same
 * transcript, and both registered means one Kz as long as either side records a
 * Noob at most once.
 */
module NoobAgreement {
  import opened Options
  import opened Kdf
  import opened Noob
  import opened NoobGuards
  import opened NoobNetwork

  /** The log before `i` justifies entry `i`. */
  ghost predicate Justified(u: Setup, log: seq<Event>, i: nat)
    requires i < |log|
  {
    match log[i]
    case ServerAsked(m, ins) => ServerReady(u.l, ins)
    case PeerAnswered(m, ins) => PeerReady(u.l, ins) && (m in u.known || ServerAsked(m, ins) in log[..i])
    case ServerDone(m, ins) => m in u.known || PeerAnswered(m, ins) in log[..i]
    case PeerDone(m) => exists j | 0 <= j < i :: log[j].PeerAnswered? && log[j].material == m
    case ServerNoob => true
    case PeerNoob => true
  }

  ghost predicate LogSound(u: Setup, log: seq<Event>) {
    forall i | 0 <= i < |log| :: Justified(u, log, i)
  }

  /** What the log says about the two association records. */
  ghost predicate Recorded(w: World) {
    && (w.pr.verified ==> exists j | 0 <= j < |w.log| ::
        w.log[j].PeerAnswered? && w.pr.m.material == Some(w.log[j].material))
    && (w.sv.m.registered.Some? ==>
          exists j | 0 <= j < |w.log| ::
            w.log[j].ServerDone? && w.sv.m.registered.value.kz == Key(Kz, w.log[j].material))
    && (w.pr.m.registered.Some? ==>
          exists j | 0 <= j < |w.log| :: w.log[j].PeerDone? && w.pr.m.registered.value.kz == Key(Kz, w.log[j].material))
  }

  ghost predicate Sound(u: Setup, w: World) {
    && ServerGuard(w.sv) && PeerGuard(w.pr)
    && ServerFields(u.l, w.sv.m) && PeerFields(u.l, w.pr.m)
    && LogSound(u, w.log)
  }

  lemma LogGrows(u: Setup, log: seq<Event>, e: Event)
    requires LogSound(u, log)
    requires Justified(u, log + [e], |log|)
    ensures LogSound(u, log + [e])
  {
    var log' := log + [e];
    forall i | 0 <= i < |log'| ensures Justified(u, log', i) {
      if i < |log| {
        assert Justified(u, log, i);
        assert log'[..i] == log[..i];
        assert forall j | 0 <= j < i :: log'[j] == log[j];
      }
    }
  }

  /** The tag the server accepts can only have come from the peer's answer. */
  lemma AcceptedFromPeer(u: Setup, log: seq<Event>, m: Bytes, ins: MacInputs)
    requires SetupOk(u) && LogSound(u, log) && ServerReady(u.l, ins)
    requires TagOk(u, log, Some(PeerTag(u.l, m, ins)))
    ensures m in u.known || PeerAnswered(m, ins) in log
  {
    if m !in u.known {
      var i :| 0 <= i < |log| && Produces(u.l, log[i], PeerTag(u.l, m, ins));
      assert Justified(u, log, i);
      SameInputs(u.l, 1, ins, log[i].ins);
      assert log[i] == PeerAnswered(m, ins);
    }
  }

  lemma AcceptedFromServer(u: Setup, log: seq<Event>, m: Bytes, ins: MacInputs)
    requires SetupOk(u) && LogSound(u, log) && PeerReady(u.l, ins)
    requires TagOk(u, log, Some(ServerTag(u.l, m, ins)))
    ensures m in u.known || ServerAsked(m, ins) in log
  {
    if m !in u.known {
      var i :| 0 <= i < |log| && Produces(u.l, log[i], ServerTag(u.l, m, ins));
      assert Justified(u, log, i);
      SameInputs(u.l, 2, log[i].ins, ins);
      assert log[i] == ServerAsked(m, ins);
    }
  }

  lemma ServerLogSound(u: Setup, w: World, m: Wire, s': ServerState, o: Outcome)
    requires SetupOk(u) && ServerFields(u.l, w.sv.m) && LogSound(u, w.log) && (m.Wire? ==> TagOk(u, w.log, m.macp))
    requires ServerStep(u.l, w.sv, m, s', o) && ServerFields(u.l, s'.m)
    ensures LogSound(u, w.log + ServerEvents(s', o))
  {
    var ev := ServerEvents(s', o);
    if Succeeds(o) {
      AcceptedFromPeer(u, w.log, s'.m.material.value, s'.m.ins);
      assert (w.log + ev)[..|w.log|] == w.log;
      LogGrows(u, w.log, ev[0]);
    } else if SendsServerTag(o) {
      LogGrows(u, w.log, ev[0]);
    } else {
      assert w.log + ev == w.log;
    }
  }

  lemma PeerLogSound(u: Setup, w: World, m: Wire, p': PeerState, o: Outcome)
    requires SetupOk(u) && LogSound(u, w.log) && Recorded(w) && (m.Wire? ==> TagOk(u, w.log, m.macs))
    requires PeerStep(u.l, w.pr, m, p', o) && PeerFields(u.l, p'.m)
    ensures LogSound(u, w.log + PeerEvents(p', o))
  {
    var ev := PeerEvents(p', o);
    if Succeeds(o) {
      assert forall j | 0 <= j < |w.log| :: (w.log + ev)[j] == w.log[j];
      LogGrows(u, w.log, ev[0]);
    } else if SendsPeerTag(o) {
      AcceptedFromServer(u, w.log, p'.m.material.value, p'.m.ins);
      assert (w.log + ev)[..|w.log|] == w.log;
      LogGrows(u, w.log, ev[0]);
    } else {
      assert w.log + ev == w.log;
    }
  }

  lemma NoobLogSound(u: Setup, log: seq<Event>, ev: seq<Event>)
    requires LogSound(u, log) && (ev == [] || ev == [ServerNoob] || ev == [PeerNoob])
    ensures LogSound(u, log + ev)
  {
    if ev == [] {
      assert log + ev == log;
    } else {
      LogGrows(u, log, ev[0]);
    }
  }

  lemma RecordedServer(l: Lib, w: World, m: Wire, s': ServerState, o: Outcome)
    requires Recorded(w) && ServerStep(l, w.sv, m, s', o)
    ensures Recorded(World(s', w.pr, w.log + ServerEvents(s', o)))
  {
    var log' := w.log + ServerEvents(s', o);
    assert forall j | 0 <= j < |w.log| :: log'[j] == w.log[j];
    if Succeeds(o) {
      assert log'[|w.log|] == ServerDone(s'.m.material.value, s'.m.ins);
    }
  }

  lemma RecordedPeer(l: Lib, w: World, m: Wire, p': PeerState, o: Outcome)
    requires Recorded(w) && PeerStep(l, w.pr, m, p', o)
    ensures Recorded(World(w.sv, p', w.log + PeerEvents(p', o)))
  {
    var log' := w.log + PeerEvents(p', o);
    assert forall j | 0 <= j < |w.log| :: log'[j] == w.log[j];
    if Succeeds(o) {
      assert log'[|w.log|] == PeerDone(p'.m.material.value);
    } else if p'.verified {
      assert log'[|w.log|] == PeerAnswered(p'.m.material.value, p'.m.ins);
    }
  }

  lemma RecordedNoob(w: World, s': ServerState, p': PeerState, ev: seq<Event>)
    requires Recorded(w)
    requires s'.m.registered == w.sv.m.registered && p'.m.registered == w.pr.m.registered
    requires p'.m.material == w.pr.m.material && p'.verified == w.pr.verified
    ensures Recorded(World(s', p', w.log + ev))
  {
    assert forall j | 0 <= j < |w.log| :: (w.log + ev)[j] == w.log[j];
  }

  /** An out-of-band call touches the Noob fields and the state, nothing else. */
  lemma ServerOobKeeps(u: Setup, s: ServerState, c: Call)
    requires !c.Message?
    ensures var s' := ServerCall(u.l, u.sc, s, c);
            && s'.m.registered == s.m.registered && s'.m.material == s.m.material
            && s'.m.z == s.m.z && s'.m.np == s.m.np && s'.m.ns == s.m.ns
            && (s'.m.noob == [] ==> s.m.noob == [])
            && (ServerFields(u.l, s.m) ==> ServerFields(u.l, s'.m))
  {
  }

  lemma PeerOobKeeps(u: Setup, p: PeerState, c: Call)
    requires !c.Message?
    ensures var p' := PeerCall(u.l, u.pc, p, c);
            && p'.m.registered == p.m.registered && p'.m.material == p.m.material && p'.verified == p.verified
            && p'.m.z == p.m.z && p'.m.np == p.m.np && p'.m.ns == p.m.ns
            && (p'.m.noob == [] ==> p.m.noob == [])
            && (PeerFields(u.l, p.m) ==> PeerFields(u.l, p'.m))
  {
  }

  lemma ServerActSound(u: Setup, w: World, m: Wire, f: Fresh, s': ServerState, o: Outcome)
    requires SetupOk(u) && Sound(u, w) && Recorded(w) && Deliverable(u, w.log, ToServer(m, f))
    requires (s', o) == ServerReceive(u.l, u.sc, w.sv, m, f)
    ensures var w' := World(s', w.pr, w.log + ServerEvents(s', o)); Sound(u, w') && Recorded(w')
  {
    ServerReceiveStep(u.l, u.sc, w.sv, m, f);
    ServerFieldsKept(u, w.sv, m, f);
    ServerLogSound(u, w, m, s', o);
    RecordedServer(u.l, w, m, s', o);
  }

  lemma PeerActSound(u: Setup, w: World, m: Wire, f: Fresh, p': PeerState, o: Outcome)
    requires SetupOk(u) && Sound(u, w) && Recorded(w) && Deliverable(u, w.log, ToPeer(m, f))
    requires (p', o) == PeerReceive(u.l, u.pc, w.pr, m, f)
    ensures var w' := World(w.sv, p', w.log + PeerEvents(p', o)); Sound(u, w') && Recorded(w')
  {
    PeerReceiveStep(u.l, u.pc, w.pr, m, f);
    PeerFieldsKept(u, w.pr, m, f);
    PeerLogSound(u, w, m, p', o);
    RecordedPeer(u.l, w, m, p', o);
  }

  lemma OobActSound(u: Setup, w: World, s': ServerState, p': PeerState, c: Call, ev: seq<Event>)
    requires Sound(u, w) && Recorded(w) && !c.Message? && (ev == [] || ev == [ServerNoob] || ev == [PeerNoob])
    requires (s' == ServerCall(u.l, u.sc, w.sv, c) && p' == w.pr) || (s' == w.sv && p' == PeerCall(u.l, u.pc, w.pr, c))
    ensures Sound(u, World(s', p', w.log + ev)) && Recorded(World(s', p', w.log + ev))
  {
    ServerCallForward(u.l, u.sc, w.sv, c);
    ServerOobKeeps(u, w.sv, c);
    PeerCallForward(u.l, u.pc, w.pr, c);
    PeerOobKeeps(u, w.pr, c);
    NoobLogSound(u, w.log, ev);
    RecordedNoob(w, s', p', ev);
  }

  lemma ActSound(u: Setup, w: World, a: Action)
    requires SetupOk(u) && Sound(u, w) && Recorded(w) && Deliverable(u, w.log, a)
    ensures Sound(u, Act(u, w, a)) && Recorded(Act(u, w, a))
  {
    match a
    case ToServer(m, f) =>
      var (s', o) := ServerReceive(u.l, u.sc, w.sv, m, f);
      ServerActSound(u, w, m, f, s', o);
    case ToPeer(m, f) =>
      var (p', o) := PeerReceive(u.l, u.pc, w.pr, m, f);
      PeerActSound(u, w, m, f, p', o);
    case ServerCalls(c) =>
      if c.Message? {
        assert w.log + [] == w.log;
      } else {
        var s' := ServerCall(u.l, u.sc, w.sv, c);
        OobActSound(u, w, s', w.pr, c, if s' != w.sv then [ServerNoob] else []);
      }
    case PeerCalls(c) =>
      if c.Message? {
        assert w.log + [] == w.log;
      } else {
        var p' := PeerCall(u.l, u.pc, w.pr, c);
        OobActSound(u, w, w.sv, p', c, if p' != w.pr then [PeerNoob] else []);
      }
  }

  lemma {:induction false} RunSound(u: Setup, run: seq<Action>)
    requires SetupOk(u) && Admissible(u, run)
    ensures Sound(u, Exec(u, run)) && Recorded(Exec(u, run))
    decreases |run|
  {
    if run == [] {
    } else {
      RunSound(u, run[..|run| - 1]);
      ActSound(u, Exec(u, run[..|run| - 1]), run[|run| - 1]);
    }
  }

  /**
   * Server side of agreement: a Registered server accepted MACp under some key, and
   * unless the network holds that key, the peer made exactly that answer earlier, with
   * every transcript field the same.
   */
  lemma ServerAgreement(u: Setup, run: seq<Action>) returns (i: nat)
    requires SetupOk(u) && Admissible(u, run) && Exec(u, run).sv.state == REGISTERED
    ensures var w := Exec(u, run);
            && i < |w.log| && w.log[i].ServerDone?
            && w.sv.m.registered.Some? && w.sv.m.registered.value.kz == Key(Kz, w.log[i].material)
            && (w.log[i].material in u.known || PeerAnswered(w.log[i].material, w.log[i].ins) in w.log[..i])
  {
    RunSound(u, run);
    var w := Exec(u, run);
    i :| 0 <= i < |w.log| && w.log[i].ServerDone? && w.sv.m.registered.value.kz == Key(Kz, w.log[i].material);
    assert Justified(u, w.log, i);
  }

  /**
   * Peer side: a Registered peer answered a Completion request earlier, and unless the
   * network holds that key, the server made exactly that request before, with every
   * transcript field the same.
   */
  lemma PeerAgreement(u: Setup, run: seq<Action>) returns (i: nat, j: nat)
    requires SetupOk(u) && Admissible(u, run) && Exec(u, run).pr.state == REGISTERED
    ensures var w := Exec(u, run);
            && j < i < |w.log| && w.log[i].PeerDone? && w.log[j].PeerAnswered? && w.log[j].material == w.log[i].material
            && w.pr.m.registered.Some? && w.pr.m.registered.value.kz == Key(Kz, w.log[i].material)
            && (w.log[j].material in u.known || ServerAsked(w.log[j].material, w.log[j].ins) in w.log[..j])
  {
    RunSound(u, run);
    i, j := PeerTrace(u, Exec(u, run));
  }

  lemma PeerTrace(u: Setup, w: World) returns (i: nat, j: nat)
    requires Sound(u, w) && Recorded(w) && w.pr.state == REGISTERED
    ensures j < i < |w.log| && w.log[i].PeerDone? && w.log[j].PeerAnswered? && w.log[j].material == w.log[i].material
    ensures w.pr.m.registered.Some? && w.pr.m.registered.value.kz == Key(Kz, w.log[i].material)
    ensures w.log[j].material in u.known || ServerAsked(w.log[j].material, w.log[j].ins) in w.log[..j]
  {
    i :| 0 <= i < |w.log| && w.log[i].PeerDone? && w.pr.m.registered.value.kz == Key(Kz, w.log[i].material);
    assert Justified(u, w.log, i);
    j :| 0 <= j < i && w.log[j].PeerAnswered? && w.log[j].material == w.log[i].material;
    assert Justified(u, w.log, j);
  }

  // ---- Agreement on Kz ----

  /** The material the peer's exchange gives for a Noob text. */
  function PeerMaterial(l: Lib, m: Method, noobText: string): Option<Bytes> {
    if m.z.None? || NonceOf(l, noobText).None? then None
    else Some(m.z.value + FixedInfo(m.np, m.ns, NonceOf(l, noobText).value))
  }

  ghost predicate PeerKeys(u: Setup, w: World) {
    && (forall i | 0 <= i < |w.log| && w.log[i].PeerAnswered? ::
          PeerMaterial(u.l, w.pr.m, w.log[i].ins.noob) == Some(w.log[i].material))
    && (multiset(w.log)[PeerNoob] == 0 ==> w.pr.m.noob == [])
    && (w.pr.m.noob == [] ==> forall i | 0 <= i < |w.log| :: !w.log[i].PeerAnswered?)
    && (multiset(w.log)[PeerNoob] <= 1 ==>
          forall i | 0 <= i < |w.log| && w.log[i].PeerAnswered? :: w.log[i].ins.noob == w.pr.m.ins.noob)
  }

  ghost predicate ServerKeys(w: World) {
    && (multiset(w.log)[ServerNoob] == 0 ==> w.sv.m.noob == [])
    && (w.sv.m.noob == [] ==> forall i | 0 <= i < |w.log| :: !w.log[i].ServerAsked? && !w.log[i].ServerDone?)
    && (multiset(w.log)[ServerNoob] <= 1 ==>
          forall i | 0 <= i < |w.log| && (w.log[i].ServerAsked? || w.log[i].ServerDone?) ::
            w.log[i].ins.noob == w.sv.m.ins.noob)
  }

  ghost predicate NoobKept(s: ServerState, s': ServerState) {
    s'.m.noob == s.m.noob && s'.m.ins.noob == s.m.ins.noob
  }

  lemma DiscoveryKeepsNoob(u: Setup, s: ServerState, w: Wire, f: Fresh)
    requires w.Wire?
    ensures NoobKept(s, OnDiscovery(u.l, u.sc, s, w, f).0)
  {
  }

  lemma NegotiationKeepsNoob(u: Setup, s: ServerState, w: Wire, f: Fresh)
    requires w.Wire?
    ensures NoobKept(s, OnNegotiation(u.l, u.sc, s, w, f).0) && NoobKept(s, OnKeyExchange(u.l, s, w).0)
  {
  }

  lemma CompletionKeepsNoob(u: Setup, s: ServerState, w: Wire, f: Fresh)
    requires w.Wire?
    ensures NoobKept(s, OnNoobId(u.l, s, w).0) && NoobKept(s, OnCompletion(u.l, s, w, f).0)
  {
  }

  lemma ServerReceiveNoob(u: Setup, s: ServerState, w: Wire, f: Fresh)
    ensures NoobKept(s, ServerReceive(u.l, u.sc, s, w, f).0)
  {
    if w.Wire? && w.error.None? && w.typ.Some? {
      match w.typ.value
      case 1 => DiscoveryKeepsNoob(u, s, w, f);
      case 2 => NegotiationKeepsNoob(u, s, w, f);
      case 3 => NegotiationKeepsNoob(u, s, w, f);
      case 5 => CompletionKeepsNoob(u, s, w, f);
      case 6 => CompletionKeepsNoob(u, s, w, f);
      case _ =>
    }
  }

  /** A handler leaves the Noob alone, and the exchanged secret once there is one. */
  ghost predicate ExchangeKept(p: PeerState, p': PeerState) {
    && p'.m.noob == p.m.noob && p'.m.ins.noob == p.m.ins.noob
    && (p.state != UNREGISTERED ==> p'.m.z == p.m.z && p'.m.np == p.m.np && p'.m.ns == p.m.ns)
  }

  lemma NegotiationKeepsExchange(l: Lib, cfg: PeerConfig, p: PeerState, w: Wire)
    requires w.Wire?
    ensures ExchangeKept(p, OnNegotiationRequest(l, cfg, p, w).0)
  {
    if l.toStr(w.peerId).Some? && OfferError(l, cfg, w) == 0 {
      var p1 := p.(m := p.m.(peerId := l.toStr(w.peerId).value));
      assert ExchangeKept(p, Select(l, cfg, p1, w, Choice(l, cfg, w)).0);
    }
  }

  lemma KeyExchangeKeepsExchange(l: Lib, p: PeerState, w: Wire, f: Fresh)
    requires w.Wire?
    ensures ExchangeKept(p, OnKeyExchangeRequest(l, p, w, f).0)
  {
  }

  lemma CompletionKeepsExchange(l: Lib, p: PeerState, w: Wire, f: Fresh)
    requires w.Wire?
    ensures ExchangeKept(p, OnCompletionRequest(l, p, w).0) && ExchangeKept(p, OnResult(p, w, f).0)
  {
  }

  lemma PeerReceiveKeeps(u: Setup, p: PeerState, w: Wire, f: Fresh)
    ensures ExchangeKept(p, PeerReceive(u.l, u.pc, p, w, f).0)
  {
    var p1 := p.(verified := false);
    if w.Wire? && w.eap != "" {
      CompletionKeepsExchange(u.l, p, w, f);
    } else if w.Wire? && w.error.None? && w.typ.Some? {
      match w.typ.value
      case 2 => NegotiationKeepsExchange(u.l, u.pc, p1, w);
      case 3 => KeyExchangeKeepsExchange(u.l, p1, w, f);
      case 6 => CompletionKeepsExchange(u.l, p1, w, f);
      case _ =>
    }
  }

  lemma ServerKeysKept(l: Lib, w: World, m: Wire, s': ServerState, o: Outcome)
    requires ServerKeys(w) && ServerStep(l, w.sv, m, s', o)
    requires s'.m.noob == w.sv.m.noob && s'.m.ins.noob == w.sv.m.ins.noob
    ensures ServerKeys(World(s', w.pr, w.log + ServerEvents(s', o)))
  {
    var log' := w.log + ServerEvents(s', o);
    assert forall i | 0 <= i < |w.log| :: log'[i] == w.log[i];
    assert multiset(log')[ServerNoob] == multiset(w.log)[ServerNoob];
  }

  lemma VerifiedMaterial(l: Lib, m: Method)
    requires ScalarLaws(l) && MacReady(m) && PeerFields(l, m)
    ensures PeerMaterial(l, m, m.ins.noob) == m.material
  {
    var t := l.b64(m.noob);
    assert l.toStr(l.rawStr(t)) == Some(t);
    assert l.unb64(l.b64(m.noob)) == Some(m.noob);
  }

  lemma PeerKeysKept(u: Setup, w: World, m: Wire, p': PeerState, o: Outcome)
    requires ScalarLaws(u.l) && PeerKeys(u, w) && PeerGuard(w.pr) && PeerStep(u.l, w.pr, m, p', o)
    requires PeerFields(u.l, p'.m) && ExchangeKept(w.pr, p')
    ensures PeerKeys(u, World(w.sv, p', w.log + PeerEvents(p', o)))
  {
    if p'.verified { VerifiedMaterial(u.l, p'.m); }
    PeerKeysAppend(u, w, p', PeerEvents(p', o));
  }

  lemma PeerKeysAppend(u: Setup, w: World, p': PeerState, ev: seq<Event>)
    requires PeerKeys(u, w) && ExchangeKept(w.pr, p') && PeerGuard(w.pr) && |ev| <= 1
    requires forall e | e in ev :: !e.PeerNoob?
    requires forall e | e in ev && e.PeerAnswered? ::
               p'.m.noob != [] && e.ins.noob == p'.m.ins.noob && PeerMaterial(u.l, p'.m, e.ins.noob) == Some(e.material)
    ensures PeerKeys(u, World(w.sv, p', w.log + ev))
  {
    var log' := w.log + ev;
    assert forall i | 0 <= i < |log'| :: log'[i] == if i < |w.log| then w.log[i] else ev[i - |w.log|];
    assert PeerNoob !in ev;
    assert multiset(log')[PeerNoob] == multiset(w.log)[PeerNoob];
  }

  lemma PeerNoobKeysKept(u: Setup, w: World, s': ServerState, p': PeerState, e: Event)
    requires PeerKeys(u, w) && (e.ServerNoob? || e.PeerNoob?)
    requires p'.m.z == w.pr.m.z && p'.m.np == w.pr.m.np && p'.m.ns == w.pr.m.ns
    requires e.PeerNoob? || p' == w.pr
    requires p'.m.noob == [] ==> w.pr.m.noob == []
    ensures PeerKeys(u, World(s', p', w.log + [e]))
  {
    var log' := w.log + [e];
    assert multiset(log') == multiset(w.log) + multiset{e};
    assert forall i | 0 <= i < |log'| :: log'[i] == if i < |w.log| then w.log[i] else e;
  }

  lemma ServerNoobKeysKept(w: World, s': ServerState, p': PeerState, e: Event)
    requires ServerKeys(w) && (e.ServerNoob? || e.PeerNoob?)
    requires e.ServerNoob? || s' == w.sv
    requires s'.m.noob == [] ==> w.sv.m.noob == []
    ensures ServerKeys(World(s', p', w.log + [e]))
  {
    var log' := w.log + [e];
    assert multiset(log') == multiset(w.log) + multiset{e};
    assert forall i | 0 <= i < |log'| :: log'[i] == if i < |w.log| then w.log[i] else e;
  }

  lemma NoobKeysKept(u: Setup, w: World, s': ServerState, p': PeerState, ev: seq<Event>)
    requires PeerKeys(u, w) && ServerKeys(w)
    requires p'.m.z == w.pr.m.z && p'.m.np == w.pr.m.np && p'.m.ns == w.pr.m.ns
    requires (s' != w.sv && p' == w.pr && ev == [ServerNoob]) || (s' == w.sv && p' != w.pr && ev == [PeerNoob])
             || (s' == w.sv && p' == w.pr && ev == [])
    requires (s'.m.noob == [] ==> w.sv.m.noob == []) && (p'.m.noob == [] ==> w.pr.m.noob == [])
    ensures PeerKeys(u, World(s', p', w.log + ev)) && ServerKeys(World(s', p', w.log + ev))
  {
    if ev == [] {
      assert World(s', p', w.log + ev) == w;
    } else {
      PeerNoobKeysKept(u, w, s', p', ev[0]);
      ServerNoobKeysKept(w, s', p', ev[0]);
    }
  }

  lemma {:induction false} RunKeys(u: Setup, run: seq<Action>)
    requires SetupOk(u) && Admissible(u, run)
    ensures PeerKeys(u, Exec(u, run)) && ServerKeys(Exec(u, run))
    decreases |run|
  {
    if run == [] {
    } else {
      var init, a := run[..|run| - 1], run[|run| - 1];
      RunKeys(u, init);
      RunSound(u, init);
      ActKeys(u, Exec(u, init), a);
    }
  }

  lemma ActKeys(u: Setup, w: World, a: Action)
    requires SetupOk(u) && Sound(u, w) && PeerKeys(u, w) && ServerKeys(w) && Deliverable(u, w.log, a)
    ensures PeerKeys(u, Act(u, w, a)) && ServerKeys(Act(u, w, a))
  {
    match a
    case ToServer(m, f) => ServerActKeys(u, w, m, f);
    case ToPeer(m, f) => PeerActKeys(u, w, m, f);
    case ServerCalls(c) =>
      var s' := if c.Message? then w.sv else ServerCall(u.l, u.sc, w.sv, c);
      if !c.Message? { ServerOobKeeps(u, w.sv, c); }
      NoobKeysKept(u, w, s', w.pr, if s' != w.sv then [ServerNoob] else []);
    case PeerCalls(c) =>
      var p' := if c.Message? then w.pr else PeerCall(u.l, u.pc, w.pr, c);
      if !c.Message? { PeerOobKeeps(u, w.pr, c); }
      NoobKeysKept(u, w, w.sv, p', if p' != w.pr then [PeerNoob] else []);
  }

  lemma ServerActKeys(u: Setup, w: World, m: Wire, f: Fresh)
    requires ServerGuard(w.sv) && PeerKeys(u, w) && ServerKeys(w)
    ensures PeerKeys(u, Act(u, w, ToServer(m, f))) && ServerKeys(Act(u, w, ToServer(m, f)))
  {
    var (s', o) := ServerReceive(u.l, u.sc, w.sv, m, f);
    ServerReceiveStep(u.l, u.sc, w.sv, m, f);
    ServerReceiveNoob(u, w.sv, m, f);
    ServerKeysKept(u.l, w, m, s', o);
    PeerUntouched(u, w, s', ServerEvents(s', o));
  }

  lemma PeerActKeys(u: Setup, w: World, m: Wire, f: Fresh)
    requires LibOk(u) && PeerGuard(w.pr) && PeerFields(u.l, w.pr.m) && WireOk(u.l, m) && PeerKeys(u, w) && ServerKeys(w)
    ensures PeerKeys(u, Act(u, w, ToPeer(m, f))) && ServerKeys(Act(u, w, ToPeer(m, f)))
  {
    var (p', o) := PeerReceive(u.l, u.pc, w.pr, m, f);
    PeerReceiveStep(u.l, u.pc, w.pr, m, f);
    PeerFieldsKept(u, w.pr, m, f);
    PeerReceiveKeeps(u, w.pr, m, f);
    PeerKeysKept(u, w, m, p', o);
    ServerUntouched(w, p', PeerEvents(p', o));
  }

  lemma PeerUntouched(u: Setup, w: World, s': ServerState, ev: seq<Event>)
    requires PeerKeys(u, w) && (forall e | e in ev :: !e.PeerAnswered? && !e.PeerNoob?)
    ensures PeerKeys(u, World(s', w.pr, w.log + ev))
  {
    assert PeerNoob !in ev;
    assert multiset(w.log + ev)[PeerNoob] == multiset(w.log)[PeerNoob] + multiset(ev)[PeerNoob];
  }

  lemma ServerUntouched(w: World, p': PeerState, ev: seq<Event>)
    requires ServerKeys(w) && (forall e | e in ev :: !e.ServerAsked? && !e.ServerDone? && !e.ServerNoob?)
    ensures ServerKeys(World(w.sv, p', w.log + ev))
  {
    assert ServerNoob !in ev;
    assert multiset(w.log + ev)[ServerNoob] == multiset(w.log)[ServerNoob] + multiset(ev)[ServerNoob];
  }

  /**
   * Key agreement: if both sides are Registered under keys the network does not hold,
   * and at least one side recorded a Noob at most once, their stored Kz are equal,
   * whatever EAP-Success messages were injected or replayed.
   */
  lemma KeyAgreement(u: Setup, run: seq<Action>)
    requires SetupOk(u) && Admissible(u, run)
    requires var w := Exec(u, run);
             && w.sv.state == REGISTERED && w.pr.state == REGISTERED
             && (multiset(w.log)[PeerNoob] <= 1 || multiset(w.log)[ServerNoob] <= 1)
             && (forall e | e in w.log && (e.ServerDone? || e.PeerDone?) :: e.material !in u.known)
    ensures var w := Exec(u, run);
            && w.sv.m.registered.Some? && w.pr.m.registered.Some?
            && w.sv.m.registered.value.kz == w.pr.m.registered.value.kz
  {
    var w := Exec(u, run);
    RunKeys(u, run);
    var i := ServerAgreement(u, run);
    var k, j := PeerAgreement(u, run);
    assert w.log[i] in w.log && w.log[k] in w.log;
    var answer := PeerAnswered(w.log[i].material, w.log[i].ins);
    var asked := ServerAsked(w.log[j].material, w.log[j].ins);
    var x :| 0 <= x < i && w.log[x] == answer;
    var y :| 0 <= y < j && w.log[y] == asked;
    assert w.log[x].ins.noob == w.log[j].ins.noob;
    assert PeerMaterial(u.l, w.pr.m, w.log[x].ins.noob) == Some(w.log[x].material);
    assert PeerMaterial(u.l, w.pr.m, w.log[j].ins.noob) == Some(w.log[j].material);
  }
}
