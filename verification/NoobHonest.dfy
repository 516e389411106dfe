/**
 * Honest pairing as a run of the network model. Relaying both roles' outputs and
 * carrying one Noob is one of the runs the agreement theorems are about, and it ends
 * with both roles Registered; and there is a library with all the laws they assume.
 */
module NoobHonest {
  import opened Options
  import opened Kdf
  import opened Transcript
  import opened Noob
  import opened NoobGuards
  import opened NoobNetwork
  import A = NoobAgreement
  import R = NoobRelay

  // ---- What a role sends can be delivered ----

  ghost predicate Sendable(u: Setup, log: seq<Event>, w: Option<Wire>) {
    w.Some? ==> WireOk(u.l, w.value) && (w.value.Wire? ==> TagOk(u, log, w.value.macs) && TagOk(u, log, w.value.macp))
  }

  /** Every field sent is one JSON value, and the tag is not the other role's. */
  ghost predicate FromServer(u: Setup, o: Outcome) {
    var m := R.Next(o);
    m.Some? ==> WireOk(u.l, m.value) && (m.value.Wire? ==> m.value.macp.None?)
  }

  ghost predicate FromPeer(u: Setup, o: Outcome) {
    var m := R.Next(o);
    m.Some? ==> WireOk(u.l, m.value) && (m.value.Wire? ==> m.value.macs.None?)
  }

  lemma OfferSends(u: Setup, s: ServerState, f: Fresh)
    requires LibOk(u)
    ensures FromServer(u, NegotiationRequest(u.l, u.sc, s, f).1) && FromServer(u, CompletionRequest(u.l, s).1)
  {
  }

  lemma DispatchSends(u: Setup, s: ServerState, w: Wire, f: Fresh)
    requires LibOk(u) && w.Wire?
    ensures FromServer(u, Dispatch(u.l, u.sc, s, w, f).1)
  {
    OfferSends(u, s, f);
  }

  lemma NegotiationSends(u: Setup, s: ServerState, w: Wire, f: Fresh)
    requires LibOk(u) && w.Wire?
    ensures FromServer(u, OnNegotiation(u.l, u.sc, s, w, f).1)
  {
  }

  lemma KeyExchangeSends(u: Setup, s: ServerState, w: Wire)
    requires LibOk(u) && w.Wire?
    ensures FromServer(u, OnKeyExchange(u.l, s, w).1)
  {
  }

  lemma NoobIdSends(u: Setup, s: ServerState, w: Wire, f: Fresh)
    requires LibOk(u) && w.Wire?
    ensures FromServer(u, OnNoobId(u.l, s, w).1)
  {
    OfferSends(u, s, f);
  }

  lemma CompletionSends(u: Setup, s: ServerState, w: Wire, f: Fresh)
    requires LibOk(u) && w.Wire?
    ensures FromServer(u, OnCompletion(u.l, s, w, f).1)
  {
    var o := OnCompletion(u.l, s, w, f).1;
    if o.Outcome? && !o.success { FixedSends(u, o.err.value, s.state); } else { FixedSends(u, 0, REGISTERED); }
  }

  lemma FixedSends(u: Setup, code: int, state: int)
    requires LibOk(u)
    ensures FromServer(u, Failed(code, state))
    ensures FromServer(u, Outcome(Some(Result(EAP_SUCCESS)), state, true, true, None))
  {
  }

  lemma ServerWireOk(u: Setup, s: ServerState, w: Wire, f: Fresh)
    requires LibOk(u)
    ensures FromServer(u, ServerReceive(u.l, u.sc, s, w, f).1)
  {
    if w.Wire? && w.error.None? && w.typ.Some? {
      match w.typ.value
      case 1 => if w.peerState.Some? { DispatchSends(u, Heard(u.l, s, w), w, f); }
      case 2 => NegotiationSends(u, s, w, f);
      case 3 => KeyExchangeSends(u, s, w);
      case 5 => NoobIdSends(u, s, w, f);
      case 6 => CompletionSends(u, s, w, f);
      case _ =>
    }
  }

  lemma SelectionSends(u: Setup, p: PeerState, w: Wire)
    requires LibOk(u) && w.Wire?
    ensures FromPeer(u, OnNegotiationRequest(u.l, u.pc, p, w).1)
  {
  }

  lemma PublicKeySends(u: Setup, p: PeerState, w: Wire, f: Fresh)
    requires LibOk(u) && w.Wire?
    ensures FromPeer(u, OnKeyExchangeRequest(u.l, p, w, f).1)
  {
  }

  lemma PeerErrorSends(u: Setup, code: int, state: int)
    requires LibOk(u)
    ensures FromPeer(u, Failed(code, state))
  {
  }

  lemma AnswerSends(u: Setup, p: PeerState, w: Wire)
    requires LibOk(u) && w.Wire?
    ensures FromPeer(u, OnCompletionRequest(u.l, p, w).1)
  {
    var o := OnCompletionRequest(u.l, p, w).1;
    if o.err.Some? { PeerErrorSends(u, o.err.value, p.state); }
  }

  lemma ResultSends(u: Setup, p: PeerState, w: Wire, f: Fresh)
    requires LibOk(u) && w.Wire?
    ensures FromPeer(u, OnResult(p, w, f).1)
  {
  }

  lemma PeerWireOk(u: Setup, p: PeerState, w: Wire, f: Fresh)
    requires LibOk(u)
    ensures FromPeer(u, PeerReceive(u.l, u.pc, p, w, f).1)
  {
    var p1 := p.(verified := false);
    if w.Wire? && w.eap != "" {
      ResultSends(u, p, w, f);
    } else if w.Wire? && w.error.None? && w.typ.Some? {
      match w.typ.value
      case 2 => SelectionSends(u, p1, w);
      case 3 => PublicKeySends(u, p1, w, f);
      case 6 => AnswerSends(u, p1, w);
      case _ =>
    }
  }

  lemma ServerSends(u: Setup, w: World, m: Wire, f: Fresh)
    requires LibOk(u) && ServerGuard(w.sv)
    ensures var (s', o) := ServerReceive(u.l, u.sc, w.sv, m, f); Sendable(u, w.log + ServerEvents(s', o), R.Next(o))
  {
    var (s', o) := ServerReceive(u.l, u.sc, w.sv, m, f);
    ServerWireOk(u, w.sv, m, f);
    ServerReceiveStep(u.l, u.sc, w.sv, m, f);
    if SendsServerTag(o) {
      var log := w.log + ServerEvents(s', o);
      assert Produces(u.l, log[|w.log|], o.send.value.macs.value);
    }
  }

  lemma PeerSends(u: Setup, w: World, m: Wire, f: Fresh)
    requires LibOk(u) && PeerGuard(w.pr)
    ensures var (p', o) := PeerReceive(u.l, u.pc, w.pr, m, f); Sendable(u, w.log + PeerEvents(p', o), R.Next(o))
  {
    var (p', o) := PeerReceive(u.l, u.pc, w.pr, m, f);
    PeerWireOk(u, w.pr, m, f);
    PeerReceiveStep(u.l, u.pc, w.pr, m, f);
    if SendsPeerTag(o) {
      var log := w.log + PeerEvents(p', o);
      assert Produces(u.l, log[|w.log|], o.send.value.macp.value);
    }
  }

  // ---- Relaying is a run ----

  lemma Append(u: Setup, run: seq<Action>, a: Action)
    requires Admissible(u, run) && Deliverable(u, Exec(u, run).log, a)
    ensures Admissible(u, run + [a]) && Exec(u, run + [a]) == Act(u, Exec(u, run), a)
  {
    assert (run + [a])[..|run|] == run;
  }

  lemma AppendQuoting(u: Setup, run: seq<Action>, a: Action)
    requires QuotesOnly(u, run) && Repeats(SentIds(u, run), a)
    ensures QuotesOnly(u, run + [a]) && SentIds(u, run + [a]) == SentIds(u, run) + SentIn(u, Exec(u, run), a)
  {
    assert (run + [a])[..|run|] == run;
  }

  /** The message names no NoobId, or one a role has sent. */
  ghost predicate Quoted(u: Setup, run: seq<Action>, m: Option<Wire>) {
    m.Some? && m.value.Wire? && m.value.noobId.Some? ==> m.value.noobId.value in SentIds(u, run)
  }

  ghost predicate SameNoobs(log: seq<Event>, log': seq<Event>) {
    multiset(log')[PeerNoob] == multiset(log)[PeerNoob] && multiset(log')[ServerNoob] == multiset(log)[ServerNoob]
  }

  lemma EventsAreNotNoobs(log: seq<Event>, ev: seq<Event>)
    requires PeerNoob !in ev && ServerNoob !in ev
    ensures SameNoobs(log, log + ev)
  {
  }

  lemma ToPeerQuotes(u: Setup, run: seq<Action>, m: Wire, f: Fresh)
    requires QuotesOnly(u, run) && Quoted(u, run, Some(m))
    ensures var run' := run + [ToPeer(m, f)];
            QuotesOnly(u, run') && Quoted(u, run', R.Next(PeerReceive(u.l, u.pc, Exec(u, run).pr, m, f).1))
  {
    AppendQuoting(u, run, ToPeer(m, f));
  }

  lemma ToPeerIsRun(u: Setup, run: seq<Action>, m: Wire, f: Fresh)
    requires SetupOk(u) && Admissible(u, run) && Sendable(u, Exec(u, run).log, Some(m))
    requires QuotesOnly(u, run) && Quoted(u, run, Some(m))
    ensures var run' := run + [ToPeer(m, f)];
            QuotesOnly(u, run') && Quoted(u, run', R.Next(PeerReceive(u.l, u.pc, Exec(u, run).pr, m, f).1))
    ensures var w, run' := Exec(u, run), run + [ToPeer(m, f)];
            var (p', o) := PeerReceive(u.l, u.pc, w.pr, m, f);
            var w' := Exec(u, run');
            && Admissible(u, run') && w'.sv == w.sv && w'.pr == p' && SameNoobs(w.log, w'.log)
            && Sendable(u, w'.log, R.Next(o))
  {
    var w := Exec(u, run);
    A.RunSound(u, run);
    Append(u, run, ToPeer(m, f));
    ToPeerQuotes(u, run, m, f);
    PeerSends(u, w, m, f);
    var (p', o) := PeerReceive(u.l, u.pc, w.pr, m, f);
    EventsAreNotNoobs(w.log, PeerEvents(p', o));
  }

  lemma ToServerQuotes(u: Setup, run: seq<Action>, m: Wire, f: Fresh)
    requires QuotesOnly(u, run) && Quoted(u, run, Some(m))
    ensures var run' := run + [ToServer(m, f)];
            QuotesOnly(u, run') && Quoted(u, run', R.Next(ServerReceive(u.l, u.sc, Exec(u, run).sv, m, f).1))
  {
    AppendQuoting(u, run, ToServer(m, f));
  }

  lemma ToServerIsRun(u: Setup, run: seq<Action>, m: Wire, f: Fresh)
    requires SetupOk(u) && Admissible(u, run) && Sendable(u, Exec(u, run).log, Some(m))
    requires QuotesOnly(u, run) && Quoted(u, run, Some(m))
    ensures var run' := run + [ToServer(m, f)];
            QuotesOnly(u, run') && Quoted(u, run', R.Next(ServerReceive(u.l, u.sc, Exec(u, run).sv, m, f).1))
    ensures var w, run' := Exec(u, run), run + [ToServer(m, f)];
            var (s', o) := ServerReceive(u.l, u.sc, w.sv, m, f);
            var w' := Exec(u, run');
            && Admissible(u, run') && w'.sv == s' && w'.pr == w.pr && SameNoobs(w.log, w'.log)
            && Sendable(u, w'.log, R.Next(o))
  {
    var w := Exec(u, run);
    A.RunSound(u, run);
    Append(u, run, ToServer(m, f));
    ToServerQuotes(u, run, m, f);
    ServerSends(u, w, m, f);
    var (s', o) := ServerReceive(u.l, u.sc, w.sv, m, f);
    EventsAreNotNoobs(w.log, ServerEvents(s', o));
  }

  lemma {:induction false} RelayIsRun(u: Setup, run: seq<Action>, m: Option<Wire>, toPeer: bool, fs: seq<Fresh>)
    returns (run': seq<Action>)
    requires SetupOk(u) && Admissible(u, run) && Sendable(u, Exec(u, run).log, m) && QuotesOnly(u, run)
    requires Quoted(u, run, m)
    ensures Admissible(u, run') && QuotesOnly(u, run') && SameNoobs(Exec(u, run).log, Exec(u, run').log)
    ensures var w := Exec(u, run);
            var e := R.Relay(u.l, u.sc, u.pc, w.sv, w.pr, m, toPeer, fs);
            Exec(u, run').sv == e.sv && Exec(u, run').pr == e.pr
    decreases |fs|
  {
    if m.None? || fs == [] { return run; }
    var w := Exec(u, run);
    if toPeer {
      ToPeerIsRun(u, run, m.value, fs[0]);
      run' := RelayIsRun(u, run + [ToPeer(m.value, fs[0])], R.Next(PeerReceive(u.l, u.pc, w.pr, m.value, fs[0]).1),
                         false, fs[1..]);
    } else {
      ToServerIsRun(u, run, m.value, fs[0]);
      run' := RelayIsRun(u, run + [ToServer(m.value, fs[0])], R.Next(ServerReceive(u.l, u.sc, w.sv, m.value, fs[0]).1),
                         true, fs[1..]);
    }
  }

  ghost predicate NoobsAtMost(log: seq<Event>, server: nat, peer: nat) {
    multiset(log)[ServerNoob] <= server && multiset(log)[PeerNoob] <= peer
  }

  lemma ServerCallIsRun(u: Setup, run: seq<Action>, c: Call, n: nat)
    requires Admissible(u, run) && QuotesOnly(u, run) && NoobsAtMost(Exec(u, run).log, 0, n) && !c.Message?
    ensures var w, w' := Exec(u, run), Exec(u, run + [ServerCalls(c)]);
            && Admissible(u, run + [ServerCalls(c)]) && QuotesOnly(u, run + [ServerCalls(c)])
            && NoobsAtMost(w'.log, 1, n)
            && w'.sv == ServerCall(u.l, u.sc, w.sv, c) && w'.pr == w.pr
  {
    Append(u, run, ServerCalls(c));
    AppendQuoting(u, run, ServerCalls(c));
  }

  lemma PeerCallIsRun(u: Setup, run: seq<Action>, c: Call, n: nat)
    requires Admissible(u, run) && QuotesOnly(u, run) && NoobsAtMost(Exec(u, run).log, n, 0) && !c.Message?
    ensures var w, w' := Exec(u, run), Exec(u, run + [PeerCalls(c)]);
            && Admissible(u, run + [PeerCalls(c)]) && QuotesOnly(u, run + [PeerCalls(c)])
            && NoobsAtMost(w'.log, n, 1)
            && w'.pr == PeerCall(u.l, u.pc, w.pr, c) && w'.sv == w.sv
  {
    Append(u, run, PeerCalls(c));
    AppendQuoting(u, run, PeerCalls(c));
  }

  /** Carrying the Noob in the negotiated direction, as two out-of-band calls. */
  lemma CarryingIsRun(u: Setup, run: seq<Action>, noob: Bytes) returns (run': seq<Action>)
    requires Admissible(u, run) && QuotesOnly(u, run) && NoobsAtMost(Exec(u, run).log, 0, 0)
    ensures Admissible(u, run') && QuotesOnly(u, run') && NoobsAtMost(Exec(u, run').log, 1, 1)
    ensures var w := Exec(u, run); (Exec(u, run').sv, Exec(u, run').pr) == R.OutOfBand(u.l, w.sv, w.pr, noob)
  {
    var w := Exec(u, run);
    if w.pr.dirp == 1 {
      PeerCallIsRun(u, run, Output(noob), 0);
      run' := run + [PeerCalls(Output(noob))];
      var msg := PeerOobOutput(u.l, w.pr, noob).1;
      if msg.Some? {
        ServerCallIsRun(u, run', Input(msg.value), 1);
        run' := run' + [ServerCalls(Input(msg.value))];
      }
    } else {
      ServerCallIsRun(u, run, Output(noob), 0);
      run' := run + [ServerCalls(Output(noob))];
      var msg := ServerOobOutput(u.l, w.sv, noob).1;
      if msg.Some? {
        PeerCallIsRun(u, run', Input(msg.value), 1);
        run' := run' + [PeerCalls(Input(msg.value))];
      }
    }
  }

  /** Conversations before the Noob is carried, one after another. */
  lemma {:induction false} ReconnectIsRun(u: Setup, run: seq<Action>, ws: seq<seq<Fresh>>) returns (run': seq<Action>)
    requires SetupOk(u) && Admissible(u, run) && QuotesOnly(u, run)
    ensures Admissible(u, run') && QuotesOnly(u, run') && SameNoobs(Exec(u, run).log, Exec(u, run').log)
    ensures var w, w' := Exec(u, run), Exec(u, run');
            var e := R.Reconnect(u.l, u.sc, u.pc, w.sv, w.pr, ws); w'.sv == e.sv && w'.pr == e.pr
    decreases |ws|
  {
    if ws == [] { return run; }
    var r1 := RelayIsRun(u, run, Some(R.START), true, ws[0]);
    run' := ReconnectIsRun(u, r1, ws[1..]);
  }

  ghost predicate BothRegistered(s: ServerState, p: PeerState) {
    s.state == REGISTERED && p.state == REGISTERED && s.m.registered.Some? && s.m.registered == p.m.registered
  }

  ghost predicate AllSaved(fs: seq<Fresh>) {
    |fs| >= 7 && forall k | 0 <= k < |fs| :: fs[k].saved
  }

  ghost predicate AllLong(ws: seq<seq<Fresh>>) {
    forall k | 0 <= k < |ws| :: |ws[k]| >= 5
  }

  lemma PairingRegisters(l: Lib, sc: ServerConfig, pc: PeerConfig, s0: ServerConfig, p0: PeerConfig, noob: Bytes,
          fs: seq<Fresh>, ws: seq<seq<Fresh>>, gs: seq<Fresh>, s: ServerState, p: PeerState)
    requires ScalarLaws(l) && DhLaws(l) && sc == ServerDefaults(s0) && pc == PeerDefaults(p0) && R.Compatible(sc, pc)
    requires |noob| == 16 && |fs| >= 7 && AllSaved(gs) && AllLong(ws)
    requires var i := R.Conversation(l, sc, pc, NEW_SERVER, NewPeer(pc), fs);
             var j := R.Reconnect(l, sc, pc, i.sv, i.pr, ws); (s, p) == R.OutOfBand(l, j.sv, j.pr, noob)
    ensures var e := R.Conversation(l, sc, pc, s, p, gs); BothRegistered(e.sv, e.pr)
  {
    R.PairingCompletes(l, s0, p0, noob, fs, ws, gs);
  }

  /** First meeting, reconnections and the Noob, in a row. */
  lemma MeetingIsRun(u: Setup, noob: Bytes, fs: seq<Fresh>, ws: seq<seq<Fresh>>) returns (run: seq<Action>)
    requires SetupOk(u)
    ensures Admissible(u, run) && QuotesOnly(u, run) && NoobsAtMost(Exec(u, run).log, 1, 1)
    ensures var i := R.Conversation(u.l, u.sc, u.pc, NEW_SERVER, NewPeer(u.pc), fs);
            var j := R.Reconnect(u.l, u.sc, u.pc, i.sv, i.pr, ws);
            (Exec(u, run).sv, Exec(u, run).pr) == R.OutOfBand(u.l, j.sv, j.pr, noob)
  {
    var r1 := RelayIsRun(u, [], Some(R.START), true, fs);
    var r2 := ReconnectIsRun(u, r1, ws);
    run := CarryingIsRun(u, r2, noob);
  }

  /**
   * Honest pairing, with any number of reconnections before the Noob is carried, is a run of the
   * network model: for every compatible pair of configurations there is an admissible run that ends
   * with both roles Registered, each having recorded at most one Noob, with the same Kz, every NoobId
   * delivered being one a role sent. So the agreement theorems speak about something, whatever the
   * network holds.
   */
  lemma HonestPairingIsRun(u: Setup, s0: ServerConfig, p0: PeerConfig, noob: Bytes, fs: seq<Fresh>, ws: seq<seq<Fresh>>,
          gs: seq<Fresh>)
    returns (run: seq<Action>)
    requires SetupOk(u) && u.sc == ServerDefaults(s0) && u.pc == PeerDefaults(p0) && R.Compatible(u.sc, u.pc)
    requires |noob| == 16 && |fs| >= 7 && AllSaved(gs) && AllLong(ws)
    ensures Admissible(u, run) && QuotesOnly(u, run)
    ensures var w := Exec(u, run); BothRegistered(w.sv, w.pr) && NoobsAtMost(w.log, 1, 1)
  {
    var met := MeetingIsRun(u, noob, fs, ws);
    PairingRegisters(u.l, u.sc, u.pc, s0, p0, noob, fs, ws, gs, Exec(u, met).sv, Exec(u, met).pr);
    run := RelayIsRun(u, met, Some(R.START), true, gs);
  }

  // ---- The laws have a model ----

  function Tally(i: int): string
    decreases if i < 0 then -i else i
  {
    if i == 0 then "0" else if i > 0 then "1" + Tally(i - 1) else "-" + Tally(i + 1)
  }

  lemma {:induction false} TallyIsNumber(i: int)
    ensures NumberText(Tally(i)) && |Tally(i)| == (if i < 0 then -i else i) + 1
    ensures Tally(i)[0] == if i == 0 then '0' else if i > 0 then '1' else '-'
    decreases if i < 0 then -i else i
  {
    if i > 0 { TallyIsNumber(i - 1); } else if i < 0 { TallyIsNumber(i + 1); }
  }

  lemma TallyInjective(i: int, j: int)
    requires Tally(i) == Tally(j)
    ensures i == j
  {
    TallyIsNumber(i);
    TallyIsNumber(j);
  }

  function Tallies(v: seq<int>): seq<string> {
    seq(|v|, k requires 0 <= k < |v| => Tally(v[k]))
  }

  function List(v: seq<int>): string {
    ArrayText(Tallies(v))
  }

  lemma TallyWellFormed(i: int)
    ensures WellFormed(Tally(i))
  {
    TallyIsNumber(i);
    assert JsonOk(Number(Tally(i))) && JsonText(Number(Tally(i))) == Tally(i);
  }

  lemma ListInjective(v: seq<int>, w: seq<int>)
    requires List(v) == List(w)
    ensures v == w
  {
    forall i: int ensures WellFormed(Tally(i)) { TallyWellFormed(i); }
    VerbatimInjective(Tallies(v), Tallies(w));
    assert |v| == |w|;
    forall k | 0 <= k < |v| ensures v[k] == w[k] {
      assert Tallies(v)[k] == Tallies(w)[k];
      TallyInjective(v[k], w[k]);
    }
  }

  /** The elements spell the texts from k on. */
  predicate Spells(es: seq<Element>, texts: seq<string>, k: nat) {
    && k <= |texts| && |es| == |texts| - k
    && forall i | 0 <= i < |es| :: es[i] == Element("", Number(texts[k + i]), "") && NumberText(texts[k + i])
  }

  /** The elements' text, in the order the array text is built. */
  lemma {:induction false} ElementsText(j: Json, es: seq<Element>, texts: seq<string>, k: nat)
    requires k < |texts| && Spells(es, texts, k) && forall e | e in es :: e.value < j
    ensures ElemsText(j, es) + "]" == Entry(texts[k]) + Rest(texts, k + 1)
    decreases |texts| - k
  {
    var head := texts[k];
    assert es[0] == Element("", Number(texts[k + 0]), "");
    assert Entry(head) == head == JsonText(es[0].value);
    if k + 1 < |texts| {
      var more := ElemsText(j, es[1..]);
      assert ElemsText(j, es) == "" + head + "" + ("," + more);
      assert Spells(es[1..], texts, k + 1) by {
        forall i | 0 <= i < |es[1..]|
          ensures es[1..][i] == Element("", Number(texts[k + 1 + i]), "") && NumberText(texts[k + 1 + i])
        {
          assert es[i + 1] == Element("", Number(texts[k + (i + 1)]), "");
        }
      }
      ElementsText(j, es[1..], texts, k + 1);
      Comma(head, more, Entry(texts[k + 1]) + Rest(texts, k + 2));
    } else {
      assert ElemsText(j, es) == "" + head + "" + "";
    }
  }

  lemma Comma(head: string, more: string, rest: string)
    requires more + "]" == rest
    ensures "" + head + "" + ("," + more) + "]" == head + ("," + rest)
  {
  }

  lemma ListWellFormed(v: seq<int>)
    ensures WellFormed(List(v))
  {
    var texts := Tallies(v);
    var es := seq(|v|, k requires 0 <= k < |v| => Element("", Number(Tally(v[k])), ""));
    forall k | 0 <= k < |v| ensures NumberText(texts[k]) { TallyIsNumber(v[k]); }
    assert Spells(es, texts, 0);
    SpelledList(es, texts);
  }

  lemma SpelledList(es: seq<Element>, texts: seq<string>)
    requires Spells(es, texts, 0)
    ensures WellFormed(ArrayText(texts))
  {
    var j := Arr("", es);
    forall e | e in es ensures e.value < j && JsonOk(e.value) && Blank(e.before) && Blank(e.after) {
      var k :| 0 <= k < |es| && es[k] == e;
      assert es[k] == Element("", Number(texts[0 + k]), "");
    }
    ArrayTail(texts);
    if texts != [] { ElementsText(j, es, texts, 0); }
    SameBrackets(ElemsText(j, es), Tail(texts, 0));
    assert JsonText(j) == ArrayText(texts);
  }

  lemma SameBrackets(body: string, tail: string)
    ensures body + "]" == tail ==> "[" + "" + body + "]" == "[" + tail
  {
  }

  ghost function Inverse<T(!new)>(f: T -> string, t: string): Option<T> {
    if x :| f(x) == t then Some(x) else None
  }

  ghost const SYMBOLIC: Lib := Lib(
    t => WellFormed(t),
    i => Tally(i), t => Inverse(i => Tally(i), t),
    v => List(v), t => Inverse(v => List(v), t),
    s => List(Codes(s)), t => Inverse(s => List(Codes(s)), t),
    b => List(b), t => Inverse((b: Bytes) => List(b), t),
    (s, a) => Tally(0), (s, a, t) => if t == "" then None else Some([]))

  function Codes(s: string): seq<int> {
    seq(|s|, k requires 0 <= k < |s| => s[k] as int)
  }

  lemma CodesInjective(s: string, t: string)
    requires Codes(s) == Codes(t)
    ensures s == t
  {
    assert |s| == |Codes(s)| && |t| == |Codes(t)|;
    forall k | 0 <= k < |s| ensures s[k] == t[k] { assert Codes(s)[k] == Codes(t)[k]; }
  }

  lemma ModelIntegers(i: int)
    ensures SYMBOLIC.toInt(SYMBOLIC.rawInt(i)) == Some(i) && SYMBOLIC.valid(SYMBOLIC.rawInt(i))
  {
    var f := (k: int) => Tally(k);
    assert f(i) == Tally(i);
    var r := Inverse(f, Tally(i));
    TallyInjective(i, r.value);
    TallyWellFormed(i);
  }

  lemma ModelLists(v: seq<int>)
    ensures SYMBOLIC.toInts(SYMBOLIC.rawInts(v)) == Some(v) && SYMBOLIC.valid(SYMBOLIC.rawInts(v))
  {
    var f := (k: seq<int>) => List(k);
    assert f(v) == List(v);
    var r := Inverse(f, List(v));
    ListInjective(v, r.value);
    ListWellFormed(v);
  }

  lemma ModelStrings(s: string)
    ensures SYMBOLIC.toStr(SYMBOLIC.rawStr(s)) == Some(s) && SYMBOLIC.valid(SYMBOLIC.rawStr(s))
  {
    var f := (k: string) => List(Codes(k));
    assert f(s) == List(Codes(s));
    var r := Inverse(f, List(Codes(s)));
    ListInjective(Codes(s), Codes(r.value));
    CodesInjective(s, r.value);
    ListWellFormed(Codes(s));
  }

  lemma ModelBytes(b: Bytes)
    ensures SYMBOLIC.unb64(SYMBOLIC.b64(b)) == Some(b)
  {
    var f := (k: Bytes) => List(k);
    assert f(b) == List(b);
    var r := Inverse(f, List(b));
    ListInjective(b, r.value);
  }

  lemma ModelRejects()
    ensures !SYMBOLIC.valid("") && SYMBOLIC.valid("{}")
    ensures SYMBOLIC.toInt("") == None && SYMBOLIC.toInts("") == None && SYMBOLIC.toStr("") == None
    ensures SYMBOLIC.toInts("\"\"") == None
  {
    if SYMBOLIC.valid("") { NonEmpty(""); }
    assert JsonOk(Obj("", [])) && JsonText(Obj("", [])) == "{}";
    forall i: int ensures Tally(i) != "" { TallyIsNumber(i); }
    forall v: seq<int> ensures List(v) != "" && List(v) != "\"\"" { assert List(v)[0] == '['; }
  }

  /** There is a library with every law the protocol theorems assume. */
  lemma LawsHaveModel()
    ensures ValidLaw(SYMBOLIC) && ScalarLaws(SYMBOLIC) && DhLaws(SYMBOLIC)
  {
    ModelRejects();
    forall i: int ensures SYMBOLIC.toInt(SYMBOLIC.rawInt(i)) == Some(i) && SYMBOLIC.valid(SYMBOLIC.rawInt(i)) {
      ModelIntegers(i);
    }
    forall v: seq<int> ensures SYMBOLIC.toInts(SYMBOLIC.rawInts(v)) == Some(v) && SYMBOLIC.valid(SYMBOLIC.rawInts(v)) {
      ModelLists(v);
    }
    forall s: string ensures SYMBOLIC.toStr(SYMBOLIC.rawStr(s)) == Some(s) && SYMBOLIC.valid(SYMBOLIC.rawStr(s)) {
      ModelStrings(s);
    }
    forall b: Bytes ensures SYMBOLIC.unb64(SYMBOLIC.b64(b)) == Some(b) { ModelBytes(b); }
    TallyWellFormed(0);
    assert Tally(0) == "0";
  }
}
