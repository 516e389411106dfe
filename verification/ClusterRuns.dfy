/**
 * Runs of the cluster manager: any interleaving of its regions, with any arguments
 * and any answers from the disk.
 */
module ClusterRuns {
  import opened Options
  import opened Cluster

  datatype Mgr = Mgr(d: Desk, t: Trust)

  const NEW_MANAGER := Mgr(NEW_DESK, NEW_TRUST)

  datatype Action =
    | DoJoin(cid: string, epoch: nat, ok: bool)
    | DoRestore
    | DoTeardown(beginOk: bool, admissionOk: bool, stuck: set<Uuid>, proofsOk: bool, restOk: bool)
    | DoRestart(keep: set<Uuid>, members: map<Uuid, Member>, retired: bool)
    | DoPublish(id: InviteId, cid: string, now: int)
    | DoRegister(id: InviteId, now: int)
    | DoPublishPin(id: InviteId, sid: nat, pin: string)
    | DoAbandon(id: InviteId, sid: nat, rejected: bool)
    | DoComplete(id: InviteId, sid: nat, parsed: Option<Peer>)
    | DoCommit(memberOk: bool, pinOk: bool, clearOk: bool)
    | DoClose(gone: bool, now: int)
    | DoCancel(id: InviteId, sid: nat)
    | DoSignal(id: InviteId, sid: nat, to: InviteState, caller: Uuid, ok: bool)
    | DoAck(id: InviteId, sid: nat, caller: Uuid)
    | DoExpire(cutoff: int, busy: set<InviteId>)
    | DoPrepare(op: nat, uuid: Uuid, tombstone: int, endorsements: seq<string>, ok: bool)
    | DoDrop(op: nat, ok: bool)
    | DoAdmit(uuid: Uuid, epoch: nat, cert: string, memberOk: bool, pinOk: bool, clearOk: bool)
    | DoGossip(uuid: Uuid, p: Proof, putOk: bool, clearOk: bool, removeOk: bool)
    | DoDepart(uuid: Uuid, tombstone: int, endorsements: seq<string>, ok: bool)

  function OnDesk(m: Mgr, r: (Desk, seq<Event>)): (Mgr, seq<Event>) {
    (m.(d := r.0), r.1)
  }

  function OnTrust(m: Mgr, r: (Trust, seq<Event>)): (Mgr, seq<Event>) {
    (m.(t := r.0), r.1)
  }

  function Act(m: Mgr, a: Action): (Mgr, seq<Event>) {
    var (d, t) := (m.d, m.t);
    match a
    case DoJoin(cid, epoch, ok) => OnTrust(m, Join(t, cid, epoch, ok))
    case DoRestore => OnTrust(m, (Restore(t), []))
    case DoTeardown(begun, ad, stuck, p, r) =>
      if !begun then OnTrust(m, (t.(teardownPending := false), []))
      else (Mgr(ResetDesk(d), ClearTrust(t, ad, stuck, p, r)), [TornDown])
    case DoRestart(keep, members, retired) =>
      (Mgr(NEW_DESK.(used := d.used), Reload(t, keep, members, retired)),
       if t.marker then [Restarted, TornDown] else [Restarted])
    case DoPublish(id, cid, now) => OnDesk(m, Publish(d, t, id, cid, now))
    case DoRegister(id, now) => OnDesk(m, (Register(d, t.clusterId, id, now), []))
    case DoPublishPin(id, sid, pin) => OnDesk(m, (PublishPin(d, id, sid, pin), []))
    case DoAbandon(id, sid, rejected) => OnDesk(m, (Abandon(d, id, sid, rejected), []))
    case DoComplete(id, sid, parsed) => OnDesk(m, (Completed(d, id, sid, parsed), []))
    case DoCommit(x, y, z) => var (d', t', es) := Commit(d, t, x, y, z); (Mgr(d', t'), es)
    case DoClose(gone, now) => OnDesk(m, (Close(d, gone, now), []))
    case DoCancel(id, sid) => OnDesk(m, (Cancel(d, id, sid), []))
    case DoSignal(id, sid, to, caller, ok) => var (d', t', es) := Signal(d, t, id, sid, to, caller, ok);
      (Mgr(d', t'), es)
    case DoAck(id, sid, caller) => OnDesk(m, Ack(d, id, sid, caller))
    case DoExpire(cutoff, busy) => OnDesk(m, (Expire(d, cutoff, busy), []))
    case DoPrepare(op, uuid, n, es, ok) => OnTrust(m, Prepare(t, op, uuid, n, es, ok))
    case DoDrop(op, ok) => OnTrust(m, Drop(t, op, ok))
    case DoAdmit(uuid, epoch, cert, x, y, z) => OnTrust(m, Admit(t, uuid, epoch, cert, x, y, z))
    case DoGossip(uuid, p, x, y, z) => OnTrust(m, (Gossip(t, uuid, p, x, y, z), []))
    case DoDepart(uuid, n, es, ok) => OnTrust(m, (Depart(t, uuid, n, es, ok), []))
  }

  /** The state after a run, and the events of each of its regions. */
  datatype World = World(m: Mgr, log: seq<seq<Event>>)

  function Exec(run: seq<Action>): (w: World)
    ensures |w.log| == |run|
  {
    if run == [] then World(NEW_MANAGER, [])
    else
      var w := Exec(run[..|run| - 1]);
      var (m, es) := Act(w.m, run[|run| - 1]);
      World(m, w.log + [es])
  }

  lemma ExecStep(run: seq<Action>, n: nat)
    requires n < |run|
    ensures Exec(run[..n + 1]) == var w := Exec(run[..n]); var (m, es) := Act(w.m, run[n]); World(m, w.log + [es])
  {
    assert run[..n + 1][..n] == run[..n];
  }

  lemma {:induction false} LogPrefix(run: seq<Action>, n: nat)
    requires n <= |run|
    ensures Exec(run[..n]).log == Exec(run).log[..n]
  {
    if n < |run| {
      var k := |run| - 1;
      LogPrefix(run[..k], n);
      assert run[..k][..n] == run[..n];
      assert run[..k + 1] == run;
      ExecStep(run, k);
    } else {
      assert run[..n] == run;
    }
  }

  lemma LogAt(run: seq<Action>, k: nat)
    requires k < |run|
    ensures Exec(run).log[k] == Act(Exec(run[..k]).m, run[k]).1
    ensures Exec(run[..k]).log == Exec(run).log[..k]
  {
    LogPrefix(run, k + 1);
    LogPrefix(run, k);
    ExecStep(run, k);
    assert Exec(run[..k + 1]).log[k] == Exec(run).log[..k + 1][k];
  }

  /** No teardown and no restart in the regions from j up to n. */
  predicate Quiet(log: seq<seq<Event>>, j: nat, n: nat)
    requires n <= |log|
  {
    forall k | j <= k < n :: TornDown !in log[k] && Restarted !in log[k]
  }

  // ---- Sessions and their generation ----

  ghost predicate SameEntry(s: Session, s': Session) {
    s'.inviteId == s.inviteId && s'.clusterId == s.clusterId && s'.gen == s.gen
  }

  /** Sessions are only dropped and keep their identity. */
  ghost predicate DeskFrame(d: Desk, d': Desk) {
    && d'.gen == d.gen && d'.walks == d.walks
    && |d'.table| == |d.table| && (forall k | 0 <= k < |d.table| :: SameEntry(d.table[k], d'.table[k]))
    && (forall id | id in d'.sessions :: id in d.sessions && d'.sessions[id] == d.sessions[id])
  }

  ghost predicate SessionsCurrent(d: Desk) {
    forall id | id in d.sessions :: SessionCurrent(d, id, d.sessions[id])
  }

  ghost predicate SessionCurrent(d: Desk, id: InviteId, sid: nat) {
    && SessionOf(d, id, sid) && id in d.walks
    && d.table[sid].gen == d.gen && d.walks[id] == Walk(d.table[sid].clusterId, d.gen)
  }

  lemma FrameKeepsSessions(d: Desk, d': Desk)
    requires SessionsCurrent(d) && DeskFrame(d, d')
    ensures SessionsCurrent(d')
  {
    forall id | id in d'.sessions ensures SessionCurrent(d', id, d'.sessions[id]) {
      assert SessionCurrent(d, id, d.sessions[id]);
      assert SameEntry(d.table[d.sessions[id]], d'.table[d.sessions[id]]);
    }
  }

  lemma PublishPinFrame(d: Desk, id: InviteId, sid: nat, pin: string)
    ensures DeskFrame(d, PublishPin(d, id, sid, pin))
  {
  }

  lemma AbandonFrame(d: Desk, id: InviteId, sid: nat, rejected: bool)
    ensures DeskFrame(d, Abandon(d, id, sid, rejected))
  {
  }

  lemma CheckFrame(d: Desk, id: InviteId, sid: nat, parsed: Option<Peer>)
    ensures DeskFrame(d, Completed(d, id, sid, parsed)) && DeskFrame(d, Cancel(d, id, sid))
  {
  }

  lemma CloseFrame(d: Desk, gone: bool, now: int)
    ensures DeskFrame(d, Close(d, gone, now))
  {
  }

  lemma AckFrame(d: Desk, id: InviteId, sid: nat, caller: Uuid)
    ensures DeskFrame(d, Ack(d, id, sid, caller).0)
  {
  }

  lemma ExpireFrame(d: Desk, cutoff: int, busy: set<InviteId>)
    ensures DeskFrame(d, Expire(d, cutoff, busy))
  {
  }

  lemma CommitFrame(d: Desk, t: Trust, memberOk: bool, pinOk: bool, clearOk: bool)
    ensures DeskFrame(d, Commit(d, t, memberOk, pinOk, clearOk).0)
  {
    if d.holder.Checked? {
      assert DeskFrame(d, CommitDesk(d, false));
      assert MayCommit(d, t) ==> DeskFrame(d, CommitDesk(d, true));
    }
  }

  lemma SignalFrame(d: Desk, t: Trust, id: InviteId, sid: nat, to: InviteState, caller: Uuid, ok: bool)
    ensures DeskFrame(d, Signal(d, t, id, sid, to, caller, ok).0)
  {
  }

  /** Every region but four leaves the generation, the walks and the sessions' identity alone. */
  lemma StepFrame(m: Mgr, a: Action)
    requires !a.DoPublish? && !a.DoRegister? && !a.DoTeardown? && !a.DoRestart?
    ensures DeskFrame(m.d, Act(m, a).0.d)
  {
    match a
    case DoPublishPin(id, sid, pin) => PublishPinFrame(m.d, id, sid, pin);
    case DoAbandon(id, sid, rejected) => AbandonFrame(m.d, id, sid, rejected);
    case DoComplete(id, sid, parsed) => CheckFrame(m.d, id, sid, parsed);
    case DoCancel(id, sid) => CheckFrame(m.d, id, sid, None);
    case DoClose(gone, now) => CloseFrame(m.d, gone, now);
    case DoAck(id, sid, caller) => AckFrame(m.d, id, sid, caller);
    case DoExpire(cutoff, busy) => ExpireFrame(m.d, cutoff, busy);
    case DoCommit(f, g, h) => CommitFrame(m.d, m.t, f, g, h);
    case DoSignal(id, sid, to, caller, ok) => SignalFrame(m.d, m.t, id, sid, to, caller, ok);
    case _ =>
  }

  lemma RegisterKeepsSessions(d: Desk, cid: string, id: InviteId, now: int)
    requires SessionsCurrent(d)
    ensures SessionsCurrent(Register(d, cid, id, now))
  {
    var d' := Register(d, cid, id, now);
    forall i | i in d'.sessions ensures SessionCurrent(d', i, d'.sessions[i]) {
      if i in d.sessions { assert SessionCurrent(d, i, d.sessions[i]); }
    }
  }

  /** A session's invite was published by a walk, so publishing a new one changes no session's walk. */
  ghost predicate WalksUsed(d: Desk) {
    d.walks.Keys <= d.used
  }

  lemma PublishKeepsSessions(d: Desk, t: Trust, id: InviteId, cid: string, now: int)
    requires SessionsCurrent(d) && WalksUsed(d)
    ensures SessionsCurrent(Publish(d, t, id, cid, now).0) && WalksUsed(Publish(d, t, id, cid, now).0)
  {
    var d' := Publish(d, t, id, cid, now).0;
    forall i | i in d'.sessions ensures SessionCurrent(d', i, d'.sessions[i]) {
      assert SessionCurrent(d, i, d.sessions[i]);
    }
  }

  lemma UsedGrows(m: Mgr, a: Action)
    ensures m.d.used <= Act(m, a).0.d.used
    ensures a.DoPublish? || Act(m, a).0.d.used == m.d.used
  {
  }

  lemma SessionsStep(m: Mgr, a: Action)
    requires SessionsCurrent(m.d) && WalksUsed(m.d)
    ensures SessionsCurrent(Act(m, a).0.d) && WalksUsed(Act(m, a).0.d)
  {
    match a
    case DoPublish(id, cid, now) => PublishKeepsSessions(m.d, m.t, id, cid, now);
    case DoRegister(id, now) => RegisterKeepsSessions(m.d, m.t.clusterId, id, now);
    case DoTeardown(_, _, _, _, _) =>
    case DoRestart(_, _, _) =>
    case _ =>
      StepFrame(m, a);
      FrameKeepsSessions(m.d, Act(m, a).0.d);
      UsedGrows(m, a);
  }

  /** In every reachable state, every live session belongs to the current generation. */
  lemma {:induction false} EverySessionIsCurrent(run: seq<Action>)
    ensures SessionsCurrent(Exec(run).m.d) && WalksUsed(Exec(run).m.d)
  {
    if run != [] {
      EverySessionIsCurrent(run[..|run| - 1]);
      SessionsStep(Exec(run[..|run| - 1]).m, run[|run| - 1]);
    }
  }
}
