/**
 * How often a Noob may be recorded. Agreement on Kz needs one side to record at most
 * one: for every larger pair of counts there is a run, even against a network that
 * holds no key and names no NoobId of its own, in which both roles register and their
 * Kz differ. The peer answers for one Noob, records another before EAP-Success, and
 * later, Registered, answers for that one; the server registers with the second answer.
 */
module NoobDisagreement {
  import opened Options
  import opened Kdf
  import opened Transcript
  import opened Noob
  import opened NoobGuards
  import opened NoobNetwork
  import A = NoobAgreement
  import H = NoobHonest
  import R = NoobRelay

  // ---- One step at a time ----

  /** A run in which every NoobId delivered is one a role has sent. */
  ghost predicate Replaying(u: Setup, run: seq<Action>) {
    Admissible(u, run) && QuotesOnly(u, run)
  }

  lemma Step(u: Setup, run: seq<Action>, a: Action) returns (run': seq<Action>)
    requires Replaying(u, run) && Deliverable(u, Exec(u, run).log, a) && Repeats(SentIds(u, run), a)
    ensures Replaying(u, run') && Exec(u, run') == Act(u, Exec(u, run), a)
    ensures SentIds(u, run') == SentIds(u, run) + SentIn(u, Exec(u, run), a)
  {
    H.Append(u, run, a);
    H.AppendQuoting(u, run, a);
    run' := run + [a];
  }

  /**
   * An out-of-band call that records the Noob and leaves the role Waiting: a message shown, or one
   * whose Hoob does not match.
   */
  function Recording(l: Lib, m: Method, shows: bool, noob: Bytes): Call {
    if shows then Output(noob) else Input(OobMessage(m.peerId, l.b64(noob), Hoob("")))
  }

  lemma NoHoobIsEmpty(l: Lib, dir: int, ins: MacInputs)
    ensures ComputeHoob(l, dir, ins) != Hoob("")
  {
  }

  lemma ServerTakes(u: Setup, s: ServerState, noob: Bytes)
    requires LibOk(u) && |noob| == 16 && s.state == WAITING && 1 <= s.dirp <= 2
    ensures ServerCall(u.l, u.sc, s, Recording(u.l, s.m, s.dirp == 2, noob)) == s.(m := SetNoob(u.l, s.m, noob))
  {
    assert u.l.unb64(u.l.b64(noob)) == Some(noob);
    NoHoobIsEmpty(u.l, 1, SetNoob(u.l, s.m, noob).ins);
  }

  lemma PeerTakes(u: Setup, p: PeerState, noob: Bytes)
    requires LibOk(u) && |noob| == 16 && p.state == WAITING && 1 <= p.dirp <= 2
    ensures PeerCall(u.l, u.pc, p, Recording(u.l, p.m, p.dirp == 1, noob)) == p.(m := SetNoob(u.l, p.m, noob))
  {
    assert u.l.unb64(u.l.b64(noob)) == Some(noob);
    NoHoobIsEmpty(u.l, 2, SetNoob(u.l, p.m, noob).ins);
  }

  lemma ServerRecords(u: Setup, run: seq<Action>, noob: Bytes) returns (run': seq<Action>)
    requires LibOk(u) && Replaying(u, run) && |noob| == 16
    requires var s := Exec(u, run).sv; s.state == WAITING && 1 <= s.dirp <= 2 && s.m.noob != noob
    ensures var w := Exec(u, run);
            Replaying(u, run')
              && Exec(u, run') == World(w.sv.(m := SetNoob(u.l, w.sv.m, noob)), w.pr, w.log + [ServerNoob])
  {
    var s := Exec(u, run).sv;
    var c := Recording(u.l, s.m, s.dirp == 2, noob);
    ServerTakes(u, s, noob);
    run' := Step(u, run, ServerCalls(c));
  }

  lemma PeerRecords(u: Setup, run: seq<Action>, noob: Bytes) returns (run': seq<Action>)
    requires LibOk(u) && Replaying(u, run) && |noob| == 16
    requires var p := Exec(u, run).pr; p.state == WAITING && 1 <= p.dirp <= 2 && p.m.noob != noob
    ensures var w := Exec(u, run);
            Replaying(u, run')
              && Exec(u, run') == World(w.sv, w.pr.(m := SetNoob(u.l, w.pr.m, noob)), w.log + [PeerNoob])
  {
    var p := Exec(u, run).pr;
    var c := Recording(u.l, p.m, p.dirp == 1, noob);
    PeerTakes(u, p, noob);
    run' := Step(u, run, PeerCalls(c));
  }

  const ANY: Fresh := Fresh("", 0, [], true)

  const NAME_IT := EMPTY.(typ := Some(5))

  lemma PeerNamesIt(u: Setup, p: PeerState)
    requires p.m.noobId.Some?
    ensures var (p', o) := PeerReceive(u.l, u.pc, p, NAME_IT, ANY);
            p' == p.(verified := false) && PeerEvents(p', o) == [] && IdIn(o) == {p.m.noobId.value}
  {
  }

  /** Asked for it, the peer sends the NoobId it holds, whatever its state. */
  lemma PeerNames(u: Setup, run: seq<Action>) returns (run': seq<Action>)
    requires LibOk(u) && Replaying(u, run) && Exec(u, run).pr.m.noobId.Some?
    ensures var w := Exec(u, run);
            && Replaying(u, run') && w.pr.m.noobId.value in SentIds(u, run')
            && Exec(u, run') == World(w.sv, w.pr.(verified := false), w.log)
  {
    var w := Exec(u, run);
    PeerNamesIt(u, w.pr);
    run' := Step(u, run, ToPeer(NAME_IT, ANY));
    assert w.log + [] == w.log;
  }

  function Naming(l: Lib, m: Method): Wire {
    EMPTY.(typ := Some(5), peerId := l.rawStr(m.peerId), noobId := m.noobId)
  }

  lemma ServerAsksAboutIt(u: Setup, s: ServerState)
    requires LibOk(u) && s.m.noobId.Some?
    ensures var (s', o) := ServerReceive(u.l, u.sc, s, Naming(u.l, s.m), ANY);
            s' == s.(m := DeriveKeys(s.m)) && ServerEvents(s', o) == [ServerAsked(Material(s.m), s.m.ins)]
  {
    assert PeerIdMatches(u.l, s.m, Naming(u.l, s.m));
  }

  /** Told the NoobId it holds, the server sends MACs for that Noob, whatever its state. */
  lemma ServerAsks(u: Setup, run: seq<Action>) returns (run': seq<Action>)
    requires LibOk(u) && Replaying(u, run)
    requires var m := Exec(u, run).sv.m; m.noobId.Some? && m.noobId.value in SentIds(u, run)
    ensures var w := Exec(u, run);
            && Replaying(u, run') && SentIds(u, run) <= SentIds(u, run')
            && Exec(u, run')
               == World(w.sv.(m := DeriveKeys(w.sv.m)), w.pr, w.log + [ServerAsked(Material(w.sv.m), w.sv.m.ins)])
  {
    var s := Exec(u, run).sv;
    ServerAsksAboutIt(u, s);
    NamingCanGo(u, Exec(u, run).log, s.m);
    run' := Step(u, run, ToServer(Naming(u.l, s.m), ANY));
  }

  lemma NamingCanGo(u: Setup, log: seq<Event>, m: Method)
    requires LibOk(u)
    ensures Deliverable(u, log, ToServer(Naming(u.l, m), ANY))
  {
  }

  function Request(l: Lib, m: Method): Wire {
    EMPTY.(typ := Some(6), noobId := m.noobId, macs := Some(ServerTag(l, Material(m), m.ins)))
  }

  lemma RequestIsAnswered(u: Setup, p: PeerState)
    requires p.m.noob != [] && p.m.noobId.Some?
    ensures var (p', o) := PeerReceive(u.l, u.pc, p, Request(u.l, p.m), ANY);
            p' == p.(verified := true, m := DeriveKeys(p.m))
              && PeerEvents(p', o) == [PeerAnswered(Material(p.m), p.m.ins)]
  {
  }

  lemma RequestCanGo(u: Setup, log: seq<Event>, m: Method, a: Action)
    requires LibOk(u) && ServerAsked(Material(m), m.ins) in log && a == ToPeer(Request(u.l, m), ANY)
    ensures Deliverable(u, log, a)
  {
    var i :| 0 <= i < |log| && log[i] == ServerAsked(Material(m), m.ins);
    assert Produces(u.l, log[i], ServerTag(u.l, Material(m), m.ins));
  }

  /** A request for the Noob the peer holds now is answered, however old it is. */
  lemma PeerAnswers(u: Setup, run: seq<Action>) returns (run': seq<Action>)
    requires LibOk(u) && Replaying(u, run)
    requires var w := Exec(u, run);
             && w.pr.m.noob != [] && w.pr.m.noobId.Some? && w.pr.m.noobId.value in SentIds(u, run)
             && ServerAsked(Material(w.pr.m), w.pr.m.ins) in w.log
    ensures var w := Exec(u, run);
            && Replaying(u, run')
            && Exec(u, run') == World(w.sv, w.pr.(verified := true, m := DeriveKeys(w.pr.m)),
                                      w.log + [PeerAnswered(Material(w.pr.m), w.pr.m.ins)])
  {
    var w := Exec(u, run);
    var a := ToPeer(Request(u.l, w.pr.m), ANY);
    RequestCanGo(u, w.log, w.pr.m, a);
    RequestIsAnswered(u, w.pr);
    run' := Step(u, run, a);
  }

  /** EAP-Success needs no key. */
  lemma PeerRegisters(u: Setup, run: seq<Action>) returns (run': seq<Action>)
    requires LibOk(u) && Replaying(u, run) && Exec(u, run).pr.verified && Exec(u, run).pr.m.material.Some?
    ensures var w, w' := Exec(u, run), Exec(u, run');
            && Replaying(u, run') && w'.sv == w.sv && w'.log == w.log + [PeerDone(w.pr.m.material.value)]
            && w'.pr.state == REGISTERED && w'.pr.m == w.pr.m.(registered := w'.pr.m.registered)
            && w'.pr.m.registered.Some?
            && w'.pr.m.registered.value.kz == Key(Kz, w.pr.m.material.value)
  {
    var a := ToPeer(Result(EAP_SUCCESS), ANY);
    run' := Step(u, run, a);
  }

  function Answer(l: Lib, m: Method): Wire
    requires m.material.Some?
  {
    EMPTY.(typ := Some(6), peerId := l.rawStr(m.peerId), macp := Some(PeerTag(l, m.material.value, m.ins)))
  }

  lemma AnswerIsAccepted(u: Setup, s: ServerState)
    requires LibOk(u) && s.state == WAITING && s.m.suite.Some? && s.m.material.Some?
    ensures var (s', o) := ServerReceive(u.l, u.sc, s, Answer(u.l, s.m), ANY);
            && s'.state == REGISTERED && s'.m.registered.Some?
            && s'.m.registered.value.kz == Key(Kz, s.m.material.value)
            && ServerEvents(s', o) == [ServerDone(s.m.material.value, s.m.ins)]
  {
    assert PeerIdMatches(u.l, s.m, Answer(u.l, s.m));
  }

  lemma AnswerCanGo(u: Setup, log: seq<Event>, m: Method, a: Action)
    requires LibOk(u) && m.material.Some? && PeerAnswered(m.material.value, m.ins) in log
    requires a == ToServer(Answer(u.l, m), ANY)
    ensures Deliverable(u, log, a)
  {
    var i :| 0 <= i < |log| && log[i] == PeerAnswered(m.material.value, m.ins);
    assert Produces(u.l, log[i], PeerTag(u.l, m.material.value, m.ins));
  }

  /** The peer's answer for the Noob the server asked about last, delivered at any time. */
  lemma ServerRegisters(u: Setup, run: seq<Action>) returns (run': seq<Action>)
    requires LibOk(u) && Replaying(u, run)
    requires var w := Exec(u, run);
             && w.sv.state == WAITING && w.sv.m.suite.Some? && w.sv.m.material.Some?
             && PeerAnswered(w.sv.m.material.value, w.sv.m.ins) in w.log
    ensures var w, w' := Exec(u, run), Exec(u, run');
            && Replaying(u, run') && w'.pr == w.pr && w'.log == w.log + [ServerDone(w.sv.m.material.value, w.sv.m.ins)]
            && w'.sv.state == REGISTERED && w'.sv.m.registered.Some?
            && w'.sv.m.registered.value.kz == Key(Kz, w.sv.m.material.value)
  {
    var w := Exec(u, run);
    var a := ToServer(Answer(u.l, w.sv.m), ANY);
    AnswerCanGo(u, w.log, w.sv.m, a);
    AnswerIsAccepted(u, w.sv);
    run' := Step(u, run, a);
  }

  // ---- Recording any number of Noobs ----

  ghost predicate Counts(log: seq<Event>, n: nat, m: nat) {
    multiset(log)[ServerNoob] == n && multiset(log)[PeerNoob] == m
  }

  lemma CountOne(log: seq<Event>, e: Event, n: nat, m: nat)
    requires Counts(log, n, m)
    ensures Counts(log + [e], if e == ServerNoob then n + 1 else n, if e == PeerNoob then m + 1 else m)
  {
  }

  /** The first of k alternating Noobs whose last is y. */
  function FirstOf(k: nat, x: Bytes, y: Bytes): (r: Bytes)
    ensures r == x || r == y
    ensures k > 1 && x != y ==> r != FirstOf(k - 1, x, y)
  {
    if k <= 1 then y else if FirstOf(k - 1, x, y) == y then x else y
  }

  lemma LastNoobStays(l: Lib, m: Method, x: Bytes, y: Bytes)
    ensures SetNoob(l, SetNoob(l, m, x), y) == SetNoob(l, m, y) && SetNoob(l, m, x).noob == x
  {
  }

  lemma {:induction false} ServerRecordsMany(u: Setup, run: seq<Action>, k: nat, x: Bytes, y: Bytes, n: nat, m: nat)
    returns (run': seq<Action>, log': seq<Event>)
    requires LibOk(u) && Replaying(u, run) && |x| == |y| == 16 && x != y && Counts(Exec(u, run).log, n, m) && k > 0
    requires var s := Exec(u, run).sv; s.state == WAITING && 1 <= s.dirp <= 2 && s.m.noob != FirstOf(k, x, y)
    ensures var w := Exec(u, run);
            Replaying(u, run') && Exec(u, run') == World(w.sv.(m := SetNoob(u.l, w.sv.m, y)), w.pr, log')
              && w.log <= log' && Counts(log', n + k, m)
    decreases k
  {
    var w := Exec(u, run);
    var first := FirstOf(k, x, y);
    run' := ServerRecords(u, run, first);
    log' := Exec(u, run').log;
    CountOne(w.log, ServerNoob, n, m);
    if k > 1 {
      LastNoobStays(u.l, w.sv.m, first, y);
      run', log' := ServerRecordsMany(u, run', k - 1, x, y, n + 1, m);
    }
  }

  lemma {:induction false} PeerRecordsMany(u: Setup, run: seq<Action>, k: nat, x: Bytes, y: Bytes, n: nat, m: nat)
    returns (run': seq<Action>, log': seq<Event>)
    requires LibOk(u) && Replaying(u, run) && |x| == |y| == 16 && x != y && Counts(Exec(u, run).log, n, m) && k > 0
    requires var s := Exec(u, run).pr; s.state == WAITING && 1 <= s.dirp <= 2 && s.m.noob != FirstOf(k, x, y)
    ensures var w := Exec(u, run);
            Replaying(u, run') && Exec(u, run') == World(w.sv, w.pr.(m := SetNoob(u.l, w.pr.m, y)), log')
              && w.log <= log' && Counts(log', n, m + k)
    decreases k
  {
    var w := Exec(u, run);
    var first := FirstOf(k, x, y);
    run' := PeerRecords(u, run, first);
    log' := Exec(u, run').log;
    CountOne(w.log, PeerNoob, n, m);
    if k > 1 {
      LastNoobStays(u.l, w.pr.m, first, y);
      run', log' := PeerRecordsMany(u, run', k - 1, x, y, n, m + 1);
    }
  }

  // ---- Two Noobs on each side ----

  function Repeat(b: Byte): (r: Bytes)
    ensures |r| == 16 && r[0] == b
  {
    seq(16, _ => b)
  }

  /** The method holds this Noob in this exchange: all that its MACs and keys are computed from. */
  ghost predicate Holds(l: Lib, m: Method, m0: Method, noob: Bytes) {
    var h := SetNoob(l, m0, noob);
    && m.z == h.z && m.np == h.np && m.ns == h.ns && m.ins == h.ins && m.noob == h.noob && m.noobId == h.noobId
    && m.suite == h.suite
  }

  lemma HoldsMaterial(l: Lib, m: Method, m0: Method, noob: Bytes)
    requires Holds(l, m, m0, noob)
    ensures Material(m) == Material(SetNoob(l, m0, noob)) && Holds(l, DeriveKeys(m), m0, noob)
  {
  }

  lemma HoldsNext(l: Lib, m: Method, m0: Method, x: Bytes, y: Bytes)
    requires Holds(l, m, m0, x)
    ensures Holds(l, SetNoob(l, m, y), m0, y)
  {
  }

  /** Both roles Waiting without a Noob, agreeing on the exchange so far. */
  ghost predicate Ready(w: World, m0: Method) {
    && w.sv.state == WAITING && w.pr.state == WAITING && 1 <= w.sv.dirp <= 2 && 1 <= w.pr.dirp <= 2
    && w.sv.m.noob == [] && w.pr.m.noob == [] && w.sv.m.suite.Some? && m0 == w.pr.m && m0 == w.sv.m.(priv := m0.priv)
  }

  /** Both hold x, and the server has asked about it, the NoobId coming from the peer. */
  ghost predicate Asked(u: Setup, w: World, m0: Method, x: Bytes, ids: set<NoobId>) {
    && w.sv.state == WAITING && w.pr.state == WAITING && 1 <= w.sv.dirp <= 2 && 1 <= w.pr.dirp <= 2
    && Holds(u.l, w.sv.m, m0, x) && Holds(u.l, w.pr.m, m0, x) && w.pr.m.noobId.value in ids
    && ServerAsked(Material(w.pr.m), w.pr.m.ins) in w.log
  }

  /** The server records n - 1 Noobs and the peer m - 1, both ending with x; the peer names it and the server asks. */
  lemma FirstAsked(u: Setup, run: seq<Action>, m0: Method, n: nat, m: nat, x: Bytes, y: Bytes)
    returns (run': seq<Action>)
    requires LibOk(u) && Replaying(u, run) && n >= 2 && m >= 2 && |x| == |y| == 16 && x != y
    requires Counts(Exec(u, run).log, 0, 0) && Ready(Exec(u, run), m0)
    ensures Replaying(u, run') && Counts(Exec(u, run').log, n - 1, m - 1)
    ensures Asked(u, Exec(u, run'), m0, x, SentIds(u, run'))
  {
    var r1, log1 := ServerRecordsMany(u, run, n - 1, y, x, 0, 0);
    var r2, log2 := PeerRecordsMany(u, r1, m - 1, y, x, n - 1, 0);
    var r3 := PeerNames(u, r2);
    run' := ServerAsks(u, r3);
    var h := SetNoob(u.l, m0, x);
    var e := ServerAsked(Material(h), h.ins);
    CountOne(log2, e, n - 1, m - 1);
    assert Exec(u, run').log[|log2|] == e;
  }

  /** The peer registered with x, holds y, and the server, still Waiting, holds x. */
  ghost predicate Halfway(u: Setup, w: World, m0: Method, x: Bytes, y: Bytes) {
    && w.sv.state == WAITING && 1 <= w.sv.dirp <= 2 && Holds(u.l, w.sv.m, m0, x) && Holds(u.l, w.pr.m, m0, y)
    && w.pr.state == REGISTERED && w.pr.m.registered.Some?
    && w.pr.m.registered.value.kz == Key(Kz, Material(SetNoob(u.l, m0, x)))
  }

  /** The peer answers for x, records y while it waits for the result, and registers: with x. */
  lemma FirstAnswered(u: Setup, run: seq<Action>, m0: Method, n: nat, m: nat, x: Bytes, y: Bytes)
    returns (run': seq<Action>)
    requires LibOk(u) && Replaying(u, run) && |x| == |y| == 16 && x != y && Counts(Exec(u, run).log, n, m)
    requires Asked(u, Exec(u, run), m0, x, SentIds(u, run))
    ensures Replaying(u, run') && Counts(Exec(u, run').log, n, m + 1) && Halfway(u, Exec(u, run'), m0, x, y)
  {
    var w := Exec(u, run);
    HoldsMaterial(u.l, w.pr.m, m0, x);
    var e := PeerAnswered(Material(w.pr.m), w.pr.m.ins);
    var r1 := PeerAnswers(u, run);
    CountOne(w.log, e, n, m);
    var r2 := PeerRecords(u, r1, y);
    HoldsNext(u.l, DeriveKeys(w.pr.m), m0, x, y);
    CountOne(w.log + [e], PeerNoob, n, m);
    run' := PeerRegisters(u, r2);
    CountOne(w.log + [e] + [PeerNoob], PeerDone(Material(w.pr.m)), n, m + 1);
  }

  /** The server records y, asks about it, and the registered peer answers. */
  lemma SecondCompletes(u: Setup, run: seq<Action>, m0: Method, n: nat, m: nat, x: Bytes, y: Bytes)
    returns (run': seq<Action>)
    requires LibOk(u) && Replaying(u, run) && |x| == |y| == 16 && x != y && Counts(Exec(u, run).log, n, m)
    requires Halfway(u, Exec(u, run), m0, x, y) && m0.suite.Some?
    ensures Replaying(u, run') && Counts(Exec(u, run').log, n + 1, m) && BothRegistered(Exec(u, run'))
    ensures var w := Exec(u, run');
            && w.pr.m.registered.value.kz == Key(Kz, Material(SetNoob(u.l, m0, x)))
            && w.sv.m.registered.value.kz == Key(Kz, Material(SetNoob(u.l, m0, y)))
  {
    var w := Exec(u, run);
    var r1 := ServerRecords(u, run, y);
    CountOne(w.log, ServerNoob, n, m);
    HoldsNext(u.l, w.sv.m, m0, x, y);
    var r2 := PeerNames(u, r1);
    var h := SetNoob(u.l, m0, y);
    var asked, answered := ServerAsked(Material(h), h.ins), PeerAnswered(Material(h), h.ins);
    var log1 := w.log + [ServerNoob];
    HoldsMaterial(u.l, SetNoob(u.l, w.sv.m, y), m0, y);
    HoldsMaterial(u.l, w.pr.m, m0, y);
    var r3 := ServerAsks(u, r2);
    CountOne(log1, asked, n + 1, m);
    assert (log1 + [asked])[|log1|] == asked;
    var r4 := PeerAnswers(u, r3);
    CountOne(log1 + [asked], answered, n + 1, m);
    assert (log1 + [asked] + [answered])[|log1| + 1] == answered;
    run' := ServerRegisters(u, r4);
    CountOne(log1 + [asked] + [answered], ServerDone(Material(h), h.ins), n + 1, m);
  }

  lemma MaterialDiffers(l: Lib, m: Method, x: Bytes, y: Bytes)
    requires |x| == |y| == 16 && x != y && m.z.Some?
    ensures Material(SetNoob(l, m, x)) != Material(SetNoob(l, m, y))
  {
    var a, b := FixedInfo(m.np, m.ns, x), FixedInfo(m.np, m.ns, y);
    if m.z.value + a == m.z.value + b {
      assert a == (m.z.value + a)[|m.z.value|..] == (m.z.value + b)[|m.z.value|..] == b;
      FixedInfoInjective(m.np, m.ns, x, m.np, m.ns, y);
    }
  }

  ghost predicate BothRegistered(w: World) {
    w.sv.state == REGISTERED && w.pr.state == REGISTERED && w.sv.m.registered.Some? && w.pr.m.registered.Some?
  }

  ghost predicate SameKz(w: World)
    requires BothRegistered(w)
  {
    w.sv.m.registered.value.kz == w.pr.m.registered.value.kz
  }

  /** The Initial Exchange, relayed. */
  lemma Meeting(u: Setup, s0: ServerConfig, p0: PeerConfig) returns (run: seq<Action>, m0: Method)
    requires SetupOk(u) && u.sc == ServerDefaults(s0) && u.pc == PeerDefaults(p0) && R.Compatible(u.sc, u.pc)
    ensures Replaying(u, run) && Counts(Exec(u, run).log, 0, 0) && Ready(Exec(u, run), m0)
    ensures m0.z.Some? && m0.suite.Some?
  {
    var fs := seq(7, _ => ANY);
    R.InitialExchange(u.l, s0, p0, fs);
    run := H.RelayIsRun(u, [], Some(R.START), true, fs);
    m0 := Exec(u, run).pr.m;
    assert R.Met(Exec(u, run).sv, Exec(u, run).pr);
  }

  /**
   * Agreement needs one of the two counts to be at most one: for all counts from two up, and every compatible
   * pair of configurations, a run with exactly those counts registers both roles with different Kz, although
   * the network names only NoobIds a role has sent.
   */
  lemma KeysCanDiffer(u: Setup, s0: ServerConfig, p0: PeerConfig, n: nat, m: nat) returns (run: seq<Action>)
    requires SetupOk(u) && u.sc == ServerDefaults(s0) && u.pc == PeerDefaults(p0) && R.Compatible(u.sc, u.pc) && n >= 2
    requires m >= 2
    ensures Admissible(u, run) && QuotesOnly(u, run) && Counts(Exec(u, run).log, n, m)
    ensures var w := Exec(u, run); BothRegistered(w) && !SameKz(w)
  {
    var r1, m0 := Meeting(u, s0, p0);
    var x, y := Repeat(0), Repeat(1);
    var r2 := FirstAsked(u, r1, m0, n, m, x, y);
    var r3 := FirstAnswered(u, r2, m0, n - 1, m - 1, x, y);
    run := SecondCompletes(u, r3, m0, n - 1, m, x, y);
    MaterialDiffers(u.l, m0, x, y);
  }

  /** Every admissible run with n and m recorded Noobs that registers both roles gives them one Kz. */
  ghost predicate AlwaysAgree(u: Setup, n: nat, m: nat) {
    forall run | Admissible(u, run) && Counts(Exec(u, run).log, n, m) && BothRegistered(Exec(u, run)) ::
      SameKz(Exec(u, run))
  }

  /** The same, of the runs in which the network names only NoobIds a role has sent. */
  ghost predicate AlwaysAgreeQuoting(u: Setup, n: nat, m: nat) {
    forall run | Replaying(u, run) && Counts(Exec(u, run).log, n, m) && BothRegistered(Exec(u, run)) ::
      SameKz(Exec(u, run))
  }

  /**
   * The exact condition for agreement on Kz, against a network that holds no key: the counts decide,
   * and they decide for agreement exactly when one side records at most one Noob. Whether the network
   * may name any NoobId or only those a role has sent makes no difference.
   */
  lemma AgreementExactlyWhen(u: Setup, s0: ServerConfig, p0: PeerConfig, n: nat, m: nat)
    requires SetupOk(u) && u.known == iset{}
    requires u.sc == ServerDefaults(s0) && u.pc == PeerDefaults(p0) && R.Compatible(u.sc, u.pc)
    ensures AlwaysAgree(u, n, m) <==> n <= 1 || m <= 1
    ensures AlwaysAgreeQuoting(u, n, m) <==> n <= 1 || m <= 1
  {
    if n <= 1 || m <= 1 {
      forall run | Admissible(u, run) && Counts(Exec(u, run).log, n, m) && BothRegistered(Exec(u, run))
        ensures SameKz(Exec(u, run))
      {
        A.KeyAgreement(u, run);
      }
    } else {
      var run := KeysCanDiffer(u, s0, p0, n, m);
      assert Replaying(u, run);
      assert !AlwaysAgree(u, n, m) && !AlwaysAgreeQuoting(u, n, m);
    }
  }
}
