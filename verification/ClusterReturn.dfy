/**
 * When nodes:remove is final. A removal can be overtaken between storing its proof
 * and dropping the pin, and then the dropped admission can come back; it can come
 * back exactly when the proof is no longer held at the moment of the drop.
 */
module ClusterReturn {
  import opened Options
  import opened Cluster
  import opened ClusterRuns
  import opened ClusterRemoval

  /** A continuation in the same cluster whose last region commits x at e or lower, nothing newer being pinned first. */
  ghost predicate Returns(run: seq<Action>, ext: seq<Action>, id: InviteId, x: Uuid, e1: nat, e: nat, cid: string) {
    && ext != [] && e1 <= e
    && var log := Exec(run + ext).log;
       Committed(id, x, e1, cid) in log[|run| + |ext| - 1] && AllSteady(log, |run|, |run| + |ext| - 1, x, e)
  }

  ghost predicate CanReturn(run: seq<Action>, x: Uuid, e: nat, cid: string) {
    exists ext, id, e1 :: Returns(run, ext, id, x, e1, e, cid)
  }

  // ---- A held proof rules every continuation out ----

  lemma HeldRulesOut(run: seq<Action>, ext: seq<Action>, id: InviteId, x: Uuid, e1: nat, e: nat, cid: string)
    requires Watch(Exec(run).m.t, x, e, cid)
    ensures !Returns(run, ext, id, x, e1, e, cid)
  {
    if Returns(run, ext, id, x, e1, e, cid) {
      assert (run + ext)[..|run|] == run;
      HeldBlocksCommit(run + ext, |run|, |run| + |ext| - 1, id, x, e1, e, cid);
    }
  }

  /** Right after a drop, holding the proof is all that Watch asks. */
  lemma AfterDrop(t: Trust, op: nat)
    requires TrustSound(t) && op in t.removals && StillRemovable(t, t.removals[op])
    ensures var r, t' := t.removals[op], Drop(t, op, true).0;
            && t'.clusterId == r.clusterId && t'.admission == (r.clusterId, r.selfEpoch) && r.clusterId != ""
            && r.selfEpoch != 0
            && r.uuid !in t'.pins && r.epoch != 0
            && (Held(t', r.uuid, r.epoch, r.clusterId) ==> Watch(t', r.uuid, r.epoch, r.clusterId))
  {
  }

  // ---- Without it, one more pairing is enough ----

  /** Whatever is inside inviteMu fails and leaves. */
  const UNLOCK := [DoTeardown(false, false, {}, false, false), DoCommit(false, false, false), DoClose(false, 0)]

  function Pairing(id: InviteId, sid: nat, x: Uuid, e: nat, cid: string): seq<Action> {
    [DoPublish(id, cid, 0), DoRegister(id, 0), DoComplete(id, sid, Some(Peer(x, e, ""))), DoCommit(true, true, true)]
  }

  /** The node can be paired at e: in the cluster, not pinned, not blocked. */
  ghost predicate Open(t: Trust, x: Uuid, e: nat, cid: string) {
    && cid != "" && t.clusterId == cid && t.admission.0 == cid && t.admission.1 != 0
    && x !in t.pins && e != 0 && !Blocks(t.proofs, x, cid, e)
  }

  function Do(w: World, acts: seq<Action>): World
    decreases acts
  {
    if acts == [] then w
    else
      var (m, es) := Act(w.m, acts[0]);
      Do(World(m, w.log + [es]), acts[1..])
  }

  function Next(w: World, a: Action): World {
    var (m, es) := Act(w.m, a);
    World(m, w.log + [es])
  }

  lemma ExecAppend(run: seq<Action>, a: Action)
    ensures Exec(run + [a]) == Next(Exec(run), a)
  {
    var run1 := run + [a];
    assert run1[..|run|] == run && run1[..|run| + 1] == run1;
    ExecStep(run1, |run|);
  }

  lemma DoNext(w: World, a: Action, rest: seq<Action>)
    ensures Do(w, [a] + rest) == Do(Next(w, a), rest)
  {
    assert ([a] + rest)[1..] == rest;
  }

  lemma {:induction false} ExecDo(run: seq<Action>, ext: seq<Action>, all: seq<Action>)
    requires all == run + ext
    ensures Exec(all) == Do(Exec(run), ext)
    decreases |ext|
  {
    if ext == [] {
      assert all == run;
    } else {
      var a, rest := ext[0], ext[1..];
      assert ext == [a] + rest;
      ExecAppend(run, a);
      DoNext(Exec(run), a, rest);
      ExecDo(run + [a], rest, all);
    }
  }

  lemma FailedCommit(m: Mgr, x: Uuid, e: nat)
    ensures var (m', es) := Act(m, DoCommit(false, false, false));
            && !m'.d.holder.Checked? && m'.d.gen == m.d.gen && m'.d.used == m.d.used && Steady(es, x, e)
            && m'.t == m.t.(members := m'.t.members)
  {
  }

  lemma Closed(m: Mgr, x: Uuid, e: nat)
    requires !m.d.holder.Checked?
    ensures var (m', es) := Act(m, DoClose(false, 0));
            m'.d.holder == Idle && m'.d.gen == m.d.gen && m'.d.used == m.d.used && Steady(es, x, e) && m'.t == m.t
  {
  }

  /** The lock is free and nothing that matters for pairing x has changed. */
  lemma Unlocked(w: World, x: Uuid, e: nat, cid: string)
    requires Open(w.m.t, x, e, cid)
    ensures var w' := Do(w, UNLOCK);
            && w'.m.d.holder == Idle && w'.m.d.used == w.m.d.used && Open(w'.m.t, x, e, cid) && !w'.m.t.teardownPending
            && |w'.log| == |w.log| + 3 && w'.log[..|w.log|] == w.log && AllSteady(w'.log, |w.log|, |w.log| + 3, x, e)
  {
    var a0, a1, a2 := UNLOCK[0], UNLOCK[1], UNLOCK[2];
    var (m1, e1) := Act(w.m, a0);
    var (m2, e2) := Act(m1, a1);
    var (m3, e3) := Act(m2, a2);
    FailedCommit(m1, x, e);
    Closed(m2, x, e);
    assert UNLOCK == [a0] + ([a1] + ([a2] + []));
    DoNext(w, a0, [a1] + ([a2] + []));
    DoNext(World(m1, w.log + [e1]), a1, [a2] + []);
    DoNext(World(m2, w.log + [e1] + [e2]), a2, []);
    Threefold(w.log, e1, e2, e3, x, e);
  }

  lemma Threefold(log: seq<seq<Event>>, e1: seq<Event>, e2: seq<Event>, e3: seq<Event>, x: Uuid, e: nat)
    requires Steady(e1, x, e) && Steady(e2, x, e) && Steady(e3, x, e)
    ensures var l := log + [e1] + [e2] + [e3];
            |l| == |log| + 3 && l[..|log|] == log && AllSteady(l, |log|, |log| + 3, x, e)
  {
    var l := log + [e1] + [e2] + [e3];
    assert l[|log|] == e1 && l[|log| + 1] == e2 && l[|log| + 2] == e3;
  }

  /** Publish, register, complete: the desk is ready to commit x at e. */
  lemma ReadyAgain(d: Desk, t: Trust, id: InviteId, x: Uuid, e: nat, cid: string)
    requires d.holder == Idle && id !in d.used && Open(t, x, e, cid) && !t.teardownPending
    ensures var (d1, es) := Publish(d, t, id, cid, 0);
            var d3 := Completed(Register(d1, t.clusterId, id, 0), id, |d.table|, Some(Peer(x, e, "")));
            es == [Published(id, cid)] && d3.holder.Checked? && d3.holder.id == id && d3.holder.peer == Peer(x, e, "")
              && MayCommit(d3, t)
  {
  }

  lemma PairedAgain(w: World, id: InviteId, x: Uuid, e: nat, cid: string)
    requires w.m.d.holder == Idle && id !in w.m.d.used && Open(w.m.t, x, e, cid) && !w.m.t.teardownPending
    ensures var w' := Do(w, Pairing(id, |w.m.d.table|, x, e, cid));
            && |w'.log| == |w.log| + 4 && w'.log[..|w.log|] == w.log
            && AllSteady(w'.log, |w.log|, |w.log| + 3, x, e) && Committed(id, x, e, cid) in w'.log[|w.log| + 3]
  {
    var acts := Pairing(id, |w.m.d.table|, x, e, cid);
    var (m1, e1) := Act(w.m, acts[0]);
    var (m2, e2) := Act(m1, acts[1]);
    var (m3, e3) := Act(m2, acts[2]);
    var (m4, e4) := Act(m3, acts[3]);
    ReadyAgain(w.m.d, w.m.t, id, x, e, cid);
    CommitsAgain(m3, id, x, e, cid);
    assert acts == [acts[0]] + ([acts[1]] + ([acts[2]] + ([acts[3]] + [])));
    DoNext(w, acts[0], [acts[1]] + ([acts[2]] + ([acts[3]] + [])));
    DoNext(World(m1, w.log + [e1]), acts[1], [acts[2]] + ([acts[3]] + []));
    DoNext(World(m2, w.log + [e1] + [e2]), acts[2], [acts[3]] + []);
    DoNext(World(m3, w.log + [e1] + [e2] + [e3]), acts[3], []);
    Threefold(w.log, e1, e2, e3, x, e);
    OneMore(w.log + [e1] + [e2] + [e3], w.log, e4, x, e);
  }

  lemma OneMore(l: seq<seq<Event>>, log: seq<seq<Event>>, es: seq<Event>, x: Uuid, e: nat)
    requires |l| == |log| + 3 && l[..|log|] == log && AllSteady(l, |log|, |log| + 3, x, e)
    ensures (l + [es])[..|log|] == log && AllSteady(l + [es], |log|, |log| + 3, x, e) && (l + [es])[|log| + 3] == es
  {
    assert (l + [es])[..|log|] == l[..|log|];
  }

  lemma CommitsAgain(m: Mgr, id: InviteId, x: Uuid, e: nat, cid: string)
    requires m.d.holder.Checked? && m.d.holder.id == id && m.d.holder.peer == Peer(x, e, "") && MayCommit(m.d, m.t)
    requires Open(m.t, x, e, cid)
    ensures Committed(id, x, e, cid) in Act(m, DoCommit(true, true, true)).1
  {
  }

  /** Invite ids are strings, so there is always one more. */
  lemma {:induction false} Longer(ids: set<InviteId>) returns (n: nat)
    ensures forall i | i in ids :: |i| < n
  {
    n := 0;
    var rest := ids;
    while rest != {}
      invariant rest <= ids && forall i | i in ids - rest :: |i| < n
    {
      var i :| i in rest;
      n := if |i| < n then n else |i| + 1;
      rest := rest - {i};
    }
  }

  lemma ExecDoTwice(run: seq<Action>, e1: seq<Action>, e2: seq<Action>)
    ensures Exec(run + (e1 + e2)) == Do(Do(Exec(run), e1), e2)
  {
    ExecDo(run, e1, run + e1);
    ExecDo(run + e1, e2, run + (e1 + e2));
  }

  lemma ReturnsWhenOpen(run: seq<Action>, x: Uuid, e: nat, cid: string)
    requires Open(Exec(run).m.t, x, e, cid)
    ensures CanReturn(run, x, e, cid)
  {
    var w := Exec(run);
    var n := Longer(w.m.d.used);
    var id: InviteId := seq(n, _ => 'i');
    Unlocked(w, x, e, cid);
    var w1 := Do(w, UNLOCK);
    var acts := Pairing(id, |w1.m.d.table|, x, e, cid);
    PairedAgain(w1, id, x, e, cid);
    ExecDoTwice(run, UNLOCK, acts);
    ReturnsFrom(run, UNLOCK + acts, w.log, w1.log, Do(w1, acts).log, id, x, e, cid);
  }

  lemma ReturnsFrom(run: seq<Action>, ext: seq<Action>, a: seq<seq<Event>>, b: seq<seq<Event>>, c: seq<seq<Event>>,
                    id: InviteId, x: Uuid, e: nat, cid: string)
    requires |ext| == 7 && |run| == |a| && Exec(run + ext).log == c
    requires |b| == |a| + 3 && b[..|a|] == a && AllSteady(b, |a|, |a| + 3, x, e)
    requires |c| == |b| + 4 && c[..|b|] == b && AllSteady(c, |b|, |b| + 3, x, e)
    requires Committed(id, x, e, cid) in c[|b| + 3]
    ensures CanReturn(run, x, e, cid)
  {
    Joined4(a, b, c, x, e);
    assert Returns(run, ext, id, x, e, e, cid);
  }

  lemma Joined4(a: seq<seq<Event>>, b: seq<seq<Event>>, c: seq<seq<Event>>, x: Uuid, e: nat)
    requires |b| == |a| + 3 && b[..|a|] == a && AllSteady(b, |a|, |a| + 3, x, e)
    requires |c| == |b| + 4 && c[..|b|] == b && AllSteady(c, |b|, |b| + 3, x, e)
    ensures AllSteady(c, |a|, |a| + 6, x, e)
  {
    forall k | |a| <= k < |a| + 6 ensures Steady(c[k], x, e) {
      if k < |b| { assert c[..|b|][k] == c[k]; }
    }
  }

  /**
   * A dropped admission can come back, in this cluster and ahead of any newer one, exactly when its
   * proof is not held.
   */
  lemma DropIsFinalExactlyWhenHeld(run: seq<Action>, op: nat, x: Uuid, e: nat, cid: string)
    requires run != [] && Dropped(op, x, e, cid) in Exec(run).log[|run| - 1]
    ensures CanReturn(run, x, e, cid) <==> !Held(Exec(run).m.t, x, e, cid)
  {
    var k := |run| - 1;
    assert run[..k + 1] == run;
    LogAt(run, k);
    ExecStep(run, k);
    EveryRemovalSound(run[..k]);
    DropMeans(Exec(run[..k]).m, run[k], op, x, e, cid);
    AfterDrop(Exec(run[..k]).m.t, op);
    if !Held(Exec(run).m.t, x, e, cid) {
      ReturnsWhenOpen(run, x, e, cid);
    } else if CanReturn(run, x, e, cid) {
      var ext, id, e1 :| Returns(run, ext, id, x, e1, e, cid);
      HeldRulesOut(run, ext, id, x, e1, e, cid);
    }
  }

  // ---- The exception is reachable ----

  const ADMITTED := [DoJoin("c", 1, true), DoAdmit("x", 1, "k", true, true, true), DoPrepare(0, "x", 7, [], true)]

  function Pair(id: InviteId, sid: nat, epoch: nat): seq<Action> {
    [DoPublish(id, "c", 0), DoRegister(id, 0), DoComplete(id, sid, Some(Peer("x", epoch, "k"))),
     DoCommit(true, true, true), DoClose(false, 0)]
  }

  const REFUSED := [DoSignal("i", 0, Failed, "x", true), DoClose(false, 0)]

  /**
   * While nodes:remove is telling x that its admission 1 is removed, x pairs again at 2, refuses
   * that pairing, and pairs once more at 1. The removal then drops (x, 1) with no proof held.
   */
  const OVERTAKEN := ADMITTED + (Pair("i", 0, 2) + (REFUSED + (Pair("j", 1, 1) + [DoDrop(0, true)])))

  function XTrust(proofs: map<Uuid, Proof>, epoch: Option<nat>, removals: map<nat, Removal>): Trust {
    var pins := if epoch.Some? then map["x" := Pin("c", epoch.value, "k")] else map[];
    Trust("c", ("c", 1), 1, false, false, false, if epoch.Some? then map["x" := Member("c", epoch.value)] else map[],
          pins, pins, proofs, proofs, removals)
  }

  const REMOVING := map[0 := Removal("x", 1, "c", 1)]

  lemma Stage1()
    ensures Do(World(NEW_MANAGER, []), ADMITTED).m
            == Mgr(NEW_DESK, XTrust(map["x" := Proof("c", 1, 7, [])], Some(1), REMOVING))
  {
    var w0 := World(NEW_MANAGER, []);
    var (m1, e1) := Act(w0.m, ADMITTED[0]);
    var (m2, e2) := Act(m1, ADMITTED[1]);
    var (m3, e3) := Act(m2, ADMITTED[2]);
    assert ADMITTED == [ADMITTED[0]] + ([ADMITTED[1]] + ([ADMITTED[2]] + []));
    DoNext(w0, ADMITTED[0], [ADMITTED[1]] + ([ADMITTED[2]] + []));
    DoNext(World(m1, [e1]), ADMITTED[1], [ADMITTED[2]] + []);
    DoNext(World(m2, [e1] + [e2]), ADMITTED[2], []);
    assert m1.t == XTrust(map[], None, map[]);
    assert m2.t == XTrust(map[], Some(1), map[]);
    assert m3.t == XTrust(map["x" := Proof("c", 1, 7, [])], Some(1), REMOVING);
  }

  function PairDesk(d: Desk, id: InviteId, epoch: nat): Desk {
    d.(table := d.table + [Session(id, "c", d.gen, Some(Peer("x", epoch, "k")), true, 0)],
       sessions := d.sessions[id := |d.table|],
       invites := d.invites[id := Invite(Paired, None, 0)], walks := d.walks[id := Walk("c", d.gen)],
       used := d.used + {id})
  }

  /** One whole pairing of x, seen from the desk. */
  lemma PairDeskSteps(d: Desk, t: Trust, id: InviteId, epoch: nat)
    requires d.holder == Idle && id !in d.used && t.clusterId == "c" && t.admission == ("c", 1) && !t.teardownPending
    requires epoch != 0
    requires !Blocks(t.proofs, "x", "c", epoch) && Enroll(t, Peer("x", epoch, "k"), true, true, true).1
    ensures var d1 := Publish(d, t, id, "c", 0).0;
            var d3 := Completed(Register(d1, "c", id, 0), id, |d.table|, Some(Peer("x", epoch, "k")));
            var (d4, t4, es) := Commit(d3, t, true, true, true);
            Close(d4, false, 0) == PairDesk(d, id, epoch) && t4 == Enroll(t, Peer("x", epoch, "k"), true, true, true).0
  {
    var d1 := Publish(d, t, id, "c", 0).0;
    var d2 := Register(d1, "c", id, 0);
    var d3 := Completed(d2, id, |d.table|, Some(Peer("x", epoch, "k")));
    InviteDeskSteps(d, t, id, epoch);
    CommitDeskSteps(d3, t);
    CloseDeskSteps(d, Commit(d3, t, true, true, true).0, id, epoch);
  }

  /** The invite is pending, its session is registered, and the peer's completion has been checked. */
  lemma InviteDeskSteps(d: Desk, t: Trust, id: InviteId, epoch: nat)
    requires d.holder == Idle && id !in d.used && t.clusterId == "c" && t.admission == ("c", 1) && !t.teardownPending
    requires epoch != 0
    requires !Blocks(t.proofs, "x", "c", epoch)
    ensures var d1 := Publish(d, t, id, "c", 0).0;
            var d3 := Completed(Register(d1, "c", id, 0), id, |d.table|, Some(Peer("x", epoch, "k")));
            && d3 == d.(table := d.table + [Session(id, "c", d.gen, None, false, 0)],
                        sessions := d.sessions[id := |d.table|],
                        invites := d.invites[id := Invite(Pending, None, 0)], walks := d.walks[id := Walk("c", d.gen)],
                        used := d.used + {id},
                        holder := Checked(id, |d.table|, Invite(Pending, None, 0), Peer("x", epoch, "k")))
            && MayCommit(d3, t)
  {
    var d1 := Publish(d, t, id, "c", 0).0;
    var d2 := Register(d1, "c", id, 0);
    assert d2.table == d.table + [Session(id, "c", d.gen, None, false, 0)];
  }

  lemma CloseDeskSteps(d: Desk, d4: Desk, id: InviteId, epoch: nat)
    requires var p := Peer("x", epoch, "k");
             var begun, joined := Session(id, "c", d.gen, None, false, 0), Session(id, "c", d.gen, Some(p), false, 0);
             d4 == d.(table := (d.table + [begun])[|d.table| := joined],
                      sessions := d.sessions[id := |d.table|], invites := d.invites[id := Invite(Pending, None, 0)],
                      walks := d.walks[id := Walk("c", d.gen)], used := d.used + {id},
                      holder := Closing(id, |d.table|, Invite(Pending, None, 0), Paired))
    requires d.holder == Idle
    ensures Close(d4, false, 0) == PairDesk(d, id, epoch)
  {
    var d5 := Close(d4, false, 0);
    assert d5.table == PairDesk(d, id, epoch).table;
    assert d5.invites == PairDesk(d, id, epoch).invites;
  }

  lemma CommitDeskSteps(d: Desk, t: Trust)
    requires d.holder.Checked? && MayCommit(d, t) && Enroll(t, d.holder.peer, true, true, true).1
    ensures var (d4, t4, es) := Commit(d, t, true, true, true);
            && d4 == d.(table := d.table[d.holder.sid := d.table[d.holder.sid].(peer := Some(d.holder.peer))],
                        holder := Closing(d.holder.id, d.holder.sid, d.holder.read, Paired))
            && t4 == Enroll(t, d.holder.peer, true, true, true).0
  {
  }

  lemma PairStage(w: World, id: InviteId, epoch: nat)
    requires w.m.d.holder == Idle && id !in w.m.d.used && epoch != 0
    requires w.m.t.clusterId == "c" && w.m.t.admission == ("c", 1) && !w.m.t.teardownPending
    requires !Blocks(w.m.t.proofs, "x", "c", epoch) && Enroll(w.m.t, Peer("x", epoch, "k"), true, true, true).1
    ensures Do(w, Pair(id, |w.m.d.table|, epoch)).m
            == Mgr(PairDesk(w.m.d, id, epoch), Enroll(w.m.t, Peer("x", epoch, "k"), true, true, true).0)
  {
    var p := Pair(id, |w.m.d.table|, epoch);
    DoFive(w, p[0], p[1], p[2], p[3], p[4]);
    PairDeskSteps(w.m.d, w.m.t, id, epoch);
    FiveSteps(w, id, |w.m.d.table|, epoch);
  }

  lemma FiveSteps(w: World, id: InviteId, sid: nat, epoch: nat)
    ensures var p, t := Pair(id, sid, epoch), w.m.t;
            var d1 := Publish(w.m.d, t, id, "c", 0).0;
            var d3 := Completed(Register(d1, t.clusterId, id, 0), id, sid, Some(Peer("x", epoch, "k")));
            var (d4, t4, es) := Commit(d3, t, true, true, true);
            Next(Next(Next(Next(Next(w, p[0]), p[1]), p[2]), p[3]), p[4]).m == Mgr(Close(d4, false, 0), t4)
  {
    var p := Pair(id, sid, epoch);
    ThreeSteps(w, id, sid, epoch);
    TwoSteps(Next(Next(Next(w, p[0]), p[1]), p[2]));
  }

  lemma ThreeSteps(w: World, id: InviteId, sid: nat, epoch: nat)
    ensures var p, t := Pair(id, sid, epoch), w.m.t;
            var d1 := Publish(w.m.d, t, id, "c", 0).0;
            var d3 := Completed(Register(d1, t.clusterId, id, 0), id, sid, Some(Peer("x", epoch, "k")));
            Next(Next(Next(w, p[0]), p[1]), p[2]).m == Mgr(d3, t)
  {
  }

  lemma TwoSteps(w: World)
    ensures var (d4, t4, es) := Commit(w.m.d, w.m.t, true, true, true);
            Next(Next(w, DoCommit(true, true, true)), DoClose(false, 0)).m == Mgr(Close(d4, false, 0), t4)
  {
  }

  lemma DoFive(w: World, a: Action, b: Action, c: Action, d: Action, e: Action)
    ensures Do(w, [a, b, c, d, e]) == Next(Next(Next(Next(Next(w, a), b), c), d), e)
  {
    assert [a, b, c, d, e] == [a] + [b, c, d, e] && [b, c, d, e] == [b] + [c, d, e];
    assert [c, d, e] == [c] + [d, e] && [d, e] == [d] + [e] && [e] == [e] + [];
    DoNext(w, a, [b, c, d, e]);
    DoNext(Next(w, a), b, [c, d, e]);
    DoNext(Next(Next(w, a), b), c, [d, e]);
    DoNext(Next(Next(Next(w, a), b), c), d, [e]);
    DoNext(Next(Next(Next(Next(w, a), b), c), d), e, []);
  }

  lemma RefuseStage(w: World)
    requires w.m == Mgr(PairDesk(NEW_DESK, "i", 2), XTrust(map[], Some(2), REMOVING))
    ensures var m := Do(w, REFUSED).m;
            m.d.holder == Idle && m.d.used == {"i"} && |m.d.table| == 1 && m.t == XTrust(map[], None, REMOVING)
  {
    var w1 := Next(w, REFUSED[0]);
    assert REFUSED == [REFUSED[0]] + ([REFUSED[1]] + []);
    DoNext(w, REFUSED[0], [REFUSED[1]] + []);
    DoNext(w1, REFUSED[1], []);
    assert Refuses(w.m.d, "i", 0, Failed, "x");
    assert w1.m.t == XTrust(map[], None, REMOVING);
  }

  lemma {:induction false} DoSplit(w: World, a: seq<Action>, b: seq<Action>)
    ensures Do(w, a + b) == Do(Do(w, a), b)
    decreases |a|
  {
    if a == [] {
      assert a + b == b;
    } else {
      assert a == [a[0]] + a[1..] && a + b == [a[0]] + (a[1..] + b);
      DoNext(w, a[0], a[1..]);
      DoNext(w, a[0], a[1..] + b);
      DoSplit(Next(w, a[0]), a[1..], b);
    }
  }

  lemma Stage4(w0: World, w1: World, w2: World, w3: World, w4: World)
    requires w0 == World(NEW_MANAGER, []) && w1 == Do(w0, ADMITTED) && w2 == Do(w1, Pair("i", 0, 2))
    requires w3 == Do(w2, REFUSED) && w4 == Do(w3, Pair("j", 1, 1))
    ensures w4.m.t == XTrust(map[], Some(1), REMOVING)
  {
    Stage1();
    PairStage(w1, "i", 2);
    assert w2.m.t == XTrust(map[], Some(2), REMOVING);
    RefuseStage(w2);
    PairStage(w3, "j", 1);
    assert w4.m.t.pins == XTrust(map[], Some(1), REMOVING).pins;
  }

  /** A run in which nodes:remove drops (x, 1), and (x, 1) can come back at once. */
  lemma RemovalCanBeOvertaken()
    ensures var run := OVERTAKEN;
            && Dropped(0, "x", 1, "c") in Exec(run).log[|run| - 1]
            && !Held(Exec(run).m.t, "x", 1, "c") && CanReturn(run, "x", 1, "c")
  {
    var w0 := World(NEW_MANAGER, []);
    var w1 := Do(w0, ADMITTED);
    var w2 := Do(w1, Pair("i", 0, 2));
    var w3 := Do(w2, REFUSED);
    var w4 := Do(w3, Pair("j", 1, 1));
    OvertakenSplits(w0, w1, w2, w3, w4);
    Stage4(w0, w1, w2, w3, w4);
    LastDrops(w4, Exec(OVERTAKEN));
    DropIsFinalExactlyWhenHeld(OVERTAKEN, 0, "x", 1, "c");
  }

  lemma LastDrops(w: World, w': World)
    requires w.m.t == XTrust(map[], Some(1), REMOVING) && w' == Next(w, DoDrop(0, true))
    ensures |w'.log| == |w.log| + 1 && Dropped(0, "x", 1, "c") in w'.log[|w.log|] && !Held(w'.m.t, "x", 1, "c")
  {
    assert StillRemovable(w.m.t, REMOVING[0]);
  }

  lemma OvertakenSplits(w0: World, w1: World, w2: World, w3: World, w4: World)
    requires w0 == World(NEW_MANAGER, []) && w1 == Do(w0, ADMITTED) && w2 == Do(w1, Pair("i", 0, 2))
    requires w3 == Do(w2, REFUSED) && w4 == Do(w3, Pair("j", 1, 1))
    ensures Exec(OVERTAKEN) == Next(w4, DoDrop(0, true))
  {
    var last := [DoDrop(0, true)];
    ExecDo([], OVERTAKEN, OVERTAKEN);
    DoSplit(w0, ADMITTED, Pair("i", 0, 2) + (REFUSED + (Pair("j", 1, 1) + last)));
    DoSplit(w1, Pair("i", 0, 2), REFUSED + (Pair("j", 1, 1) + last));
    DoSplit(w2, REFUSED, Pair("j", 1, 1) + last);
    DoSplit(w3, Pair("j", 1, 1), last);
    DoNext(w4, DoDrop(0, true), []);
  }
}
