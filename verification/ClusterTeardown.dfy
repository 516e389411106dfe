/**
 * Leaving a cluster for good. A teardown ends every authorization in memory at once;
 * what it could not delete on disk is finished by the next restart, and until then
 * the node gains no trust. The journal is only forgotten in memory, not on disk, when
 * a later teardown cannot begin: then the node can join again, and the next restart
 * undoes that join. Which of the two happens is decided by the journal's marker.
 */
module ClusterTeardown {
  import opened Options
  import opened Cluster
  import opened ClusterRuns

  /** No cluster, no member, no pin, and nothing to restore from settings. */
  predicate Out(t: Trust) {
    t.clusterId == "" && t.members == map[] && t.pins == map[] && t.tornDown
  }

  /** Out, with the journal still to be finished. */
  predicate Unfinished(t: Trust) {
    Out(t) && t.teardownPending && t.marker
  }

  /**
   * What a teardown that has begun leaves: out of the cluster whatever fails; no session, no pending
   * invite, every other invite as it was, and no session that began earlier can be registered any more;
   * on disk the pins that could not be deleted; and the journal is kept exactly if something failed.
   */
  lemma TeardownMeans(m: Mgr, admissionOk: bool, stuck: set<Uuid>, proofsOk: bool, restOk: bool)
    ensures var (m', es) := Act(m, DoTeardown(true, admissionOk, stuck, proofsOk, restOk));
            var failed := !admissionOk || (exists u | u in stuck :: u in m.t.pins) || !proofsOk || !restOk;
            && Out(m'.t) && es == [TornDown] && m'.t.marker == m'.t.teardownPending == failed
            && m'.t.admission == (if admissionOk then ("", 0) else m.t.admission) && m'.t.activated == m.t.activated
            && (forall u :: u in m'.t.diskPins <==> u in m.t.diskPins && (u in m.t.pins ==> u in stuck))
            && (if proofsOk then m'.t.proofs == m'.t.diskProofs == map[]
                else m'.t.proofs == m.t.proofs && m'.t.diskProofs == m.t.diskProofs)
            && m'.d.sessions == map[] && m'.d.gen > m.d.gen
            && (forall id :: id in m'.d.invites <==> id in m.d.invites && m.d.invites[id].state != Pending)
            && (forall id | id in m'.d.invites :: m'.d.invites[id] == m.d.invites[id])
  {
  }

  /** A restart that finds the marker leaves nothing of the cluster, in memory or on disk. */
  lemma RestartFinishes(m: Mgr, keep: set<Uuid>, members: map<Uuid, Member>, retired: bool)
    requires m.t.marker
    ensures var t := Act(m, DoRestart(keep, members, retired)).0.t;
            && Out(t) && t.admission == ("", 0) && t.diskPins == map[] && t.proofs == map[] && t.diskProofs == map[]
            && t.removals == map[] && !t.marker && !t.teardownPending
  {
  }

  /** One that finds none resumes the admission on disk, with the pins kept, the rows loaded and the stored proofs. */
  lemma RestartResumes(m: Mgr, keep: set<Uuid>, members: map<Uuid, Member>, retired: bool)
    requires !m.t.marker
    ensures var t := Act(m, DoRestart(keep, members, retired)).0.t;
            && t.clusterId == t.admission.0 && t.admission == m.t.admission && t.members == members
            && t.tornDown == retired && !t.marker && !t.teardownPending
            && (forall u :: u in t.pins <==> u in m.t.diskPins && u in keep)
            && (forall u | u in t.pins :: t.pins[u] == m.t.diskPins[u])
            && t.diskPins == t.pins && t.proofs == t.diskProofs == m.t.diskProofs && t.removals == map[]
  {
  }

  // ---- Identity ----

  /** The active cluster is the admitted one, and an admission has an epoch. */
  predicate Identified(t: Trust) {
    (t.admission.0 != "" ==> t.admission.1 != 0) && (t.clusterId != "" ==> t.clusterId == t.admission.0)
  }

  /** In every reachable state. */
  lemma {:induction false} ActiveIsAdmitted(run: seq<Action>)
    ensures Identified(Exec(run).m.t)
  {
    if run != [] {
      ActiveIsAdmitted(run[..|run| - 1]);
      IdentifiedStep(Exec(run[..|run| - 1]).m, run[|run| - 1]);
    }
  }

  predicate SameIdentity(t: Trust, t': Trust) {
    && t'.clusterId == t.clusterId && t'.admission == t.admission && t'.activated == t.activated
    && t'.marker == t.marker && t'.teardownPending == t.teardownPending
  }

  lemma DeskKeepsIdentity(m: Mgr, a: Action)
    requires !a.DoGossip? && !a.DoAdmit? && !a.DoPrepare? && !a.DoDrop? && !a.DoDepart? && !a.DoJoin? && !a.DoRestore?
    requires !a.DoTeardown? && !a.DoRestart? && !a.DoCommit? && !a.DoSignal?
    ensures Act(m, a).0.t == m.t && forall e | e in Act(m, a).1 :: e.Published? || !Grants(e)
  {
  }

  lemma EnrollKeepsIdentity(t: Trust, p: Peer, x: bool, y: bool, z: bool)
    ensures SameIdentity(t, Enroll(t, p, x, y, z).0)
  {
  }

  lemma CommitKeepsIdentity(d: Desk, t: Trust, x: bool, y: bool, z: bool)
    ensures SameIdentity(t, Commit(d, t, x, y, z).1)
  {
    if d.holder.Checked? && MayCommit(d, t) { EnrollKeepsIdentity(t, d.holder.peer, x, y, z); }
  }

  lemma SignalKeepsIdentity(d: Desk, t: Trust, id: InviteId, sid: nat, to: InviteState, caller: Uuid, ok: bool)
    ensures SameIdentity(t, Signal(d, t, id, sid, to, caller, ok).1)
  {
  }

  lemma AdmitKeepsIdentity(t: Trust, uuid: Uuid, epoch: nat, cert: string, x: bool, y: bool, z: bool)
    ensures SameIdentity(t, Admit(t, uuid, epoch, cert, x, y, z).0)
  {
    EnrollKeepsIdentity(t, Peer(uuid, epoch, cert), x, y, z);
  }

  lemma EnforceKeepsIdentity(t: Trust, uuid: Uuid, epoch: nat, clearOk: bool, removeOk: bool)
    ensures SameIdentity(t, Enforce(t, uuid, epoch, clearOk, removeOk))
  {
    if uuid in t.pins && t.pins[uuid].epoch > epoch {
      var kept := ClearProof(t.proofs, uuid, t.pins[uuid].epoch, clearOk);
      SameIdentityWith(t, t.pins, t.diskPins, t.members, kept,
                       ClearProof(t.diskProofs, uuid, t.pins[uuid].epoch, clearOk));
    } else {
      var disk := if uuid in t.pins then t.diskPins - {uuid} else t.diskPins;
      SameIdentityWith(t, t.pins - {uuid}, disk, t.members - {uuid}, t.proofs, t.diskProofs);
    }
  }

  lemma SameIdentityWith(t: Trust, pins: map<Uuid, Pin>, diskPins: map<Uuid, Pin>, members: map<Uuid, Member>,
          proofs: map<Uuid, Proof>, diskProofs: map<Uuid, Proof>)
    ensures SameIdentity(t, t.(pins := pins, diskPins := diskPins, members := members, proofs := proofs,
                               diskProofs := diskProofs))
  {
  }

  lemma GossipKeepsIdentity(t: Trust, uuid: Uuid, p: Proof, putOk: bool, clearOk: bool, removeOk: bool)
    ensures SameIdentity(t, Gossip(t, uuid, p, putOk, clearOk, removeOk))
  {
    var put := PutProof(t.proofs, uuid, p, uuid in t.pins && t.pins[uuid].epoch == p.epoch, putOk);
    if put.Some? {
      EnforceKeepsIdentity(t.(proofs := put.value, diskProofs := put.value), uuid, p.epoch, clearOk, removeOk);
    }
  }

  lemma DepartKeepsIdentity(t: Trust, self: Uuid, tombstone: int, endorsements: seq<string>, ok: bool)
    ensures SameIdentity(t, Depart(t, self, tombstone, endorsements, ok))
  {
  }

  lemma PrepareKeepsIdentity(t: Trust, op: nat, uuid: Uuid, tombstone: int, endorsements: seq<string>, ok: bool)
    ensures SameIdentity(t, Prepare(t, op, uuid, tombstone, endorsements, ok).0)
  {
  }

  lemma DropKeepsIdentity(t: Trust, op: nat, ok: bool)
    ensures SameIdentity(t, Drop(t, op, ok).0)
  {
  }

  lemma RosterKeepsIdentity(m: Mgr, a: Action)
    requires a.DoGossip? || a.DoAdmit? || a.DoPrepare? || a.DoDrop? || a.DoDepart?
    ensures SameIdentity(m.t, Act(m, a).0.t)
  {
    if a.DoAdmit? { AdmitKeepsIdentity(m.t, a.uuid, a.epoch, a.cert, a.memberOk, a.pinOk, a.clearOk); }
    else if a.DoGossip? { GossipKeepsIdentity(m.t, a.uuid, a.p, a.putOk, a.clearOk, a.removeOk); }
    else if a.DoDepart? { DepartKeepsIdentity(m.t, a.uuid, a.tombstone, a.endorsements, a.ok); }
    else if a.DoPrepare? { PrepareKeepsIdentity(m.t, a.op, a.uuid, a.tombstone, a.endorsements, a.ok); }
    else { DropKeepsIdentity(m.t, a.op, a.ok); }
  }

  /** Only founding, restoring, leaving and restarting touch the node's identity or the journal. */
  lemma KeepsIdentity(m: Mgr, a: Action)
    requires !a.DoJoin? && !a.DoRestore? && !a.DoTeardown? && !a.DoRestart?
    ensures SameIdentity(m.t, Act(m, a).0.t)
  {
    if a.DoCommit? { CommitKeepsIdentity(m.d, m.t, a.memberOk, a.pinOk, a.clearOk); }
    else if a.DoSignal? { SignalKeepsIdentity(m.d, m.t, a.id, a.sid, a.to, a.caller, a.ok); }
    else if a.DoGossip? || a.DoAdmit? || a.DoPrepare? || a.DoDrop? || a.DoDepart? { RosterKeepsIdentity(m, a); }
    else { DeskKeepsIdentity(m, a); }
  }

  lemma IdentifiedStep(m: Mgr, a: Action)
    requires Identified(m.t)
    ensures Identified(Act(m, a).0.t)
  {
    if !a.DoJoin? && !a.DoRestore? && !a.DoTeardown? && !a.DoRestart? {
      KeepsIdentity(m, a);
    } else {
      IdentityMoves(m, a);
    }
  }

  lemma IdentityMoves(m: Mgr, a: Action)
    requires Identified(m.t) && (a.DoJoin? || a.DoRestore? || a.DoTeardown? || a.DoRestart?)
    ensures Identified(Act(m, a).0.t)
  {
    if a.DoJoin? { JoinMeans(m, a.cid, a.epoch, a.ok); }
    else if a.DoRestore? { RestoreMeans(m); }
    else if a.DoRestart? && m.t.marker { RestartFinishes(m, a.keep, a.members, a.retired); }
    else if a.DoRestart? { RestartResumes(m, a.keep, a.members, a.retired); }
    else if a.beginOk { TeardownMeans(m, a.admissionOk, a.stuck, a.proofsOk, a.restOk); }
  }

  /** The node's own admission is confirmed exactly for rows whose pin names the same admission to this cluster. */
  predicate Confirmed(t: Trust, cid: string, u: Uuid) {
    && u in t.members && u in t.pins && t.members[u].clusterId == cid && t.pins[u].clusterId == cid
    && t.members[u].epoch == t.pins[u].epoch && t.pins[u].epoch != 0
  }

  /**
   * Restoring from settings resumes the admitted cluster, with its confirmed members and no other, unless
   * there is no admission or the cluster was torn down; then it changes nothing.
   */
  lemma RestoreMeans(m: Mgr)
    ensures var (m', es) := Act(m, DoRestore);
            if m.t.tornDown || m.t.admission.0 == "" then m' == m
            else
              && m'.d == m.d && m'.t.clusterId == m.t.admission.0 && m'.t.admission == m.t.admission
              && (forall u :: u in m'.t.members <==> Confirmed(m.t, m.t.admission.0, u))
              && (forall u :: u in m'.t.pins <==> Confirmed(m.t, m.t.admission.0, u))
              && (forall u | u in m'.t.members && u in m.t.members && u in m.t.pins && u in m'.t.pins ::
                    m'.t.members[u] == m.t.members[u] && m'.t.pins[u] == m.t.pins[u])
              && (forall u :: u in m'.t.diskPins <==> u in m.t.diskPins && (u in m.t.pins ==> u in m'.t.pins))
              && m'.t.proofs == m.t.proofs
  {
  }

  /** Joining takes a fresh epoch and no unfinished teardown; a failed activation leaves the node out. */
  lemma JoinMeans(m: Mgr, cid: string, epoch: nat, ok: bool)
    ensures var (m', es) := Act(m, DoJoin(cid, epoch, ok));
            if m.t.teardownPending || cid == "" || epoch <= m.t.activated then m' == m && es == []
            else if !ok then m' == m.(t := m.t.(clusterId := "")) && es == []
            else && es == [Joined(cid)] && m'.t.clusterId == cid && m'.t.admission == (cid, epoch)
                 && m'.t.activated == epoch && m'.t.pins == m.t.pins && m'.t.members == m.t.members
  {
  }

  // ---- Until the journal is finished ----

  /** Trust may grow by it. */
  predicate Grants(e: Event) {
    e.Joined? || e.Committed? || e.Pinned? || e.Wrote? || e.Published?
  }

  lemma UnfinishedStep(m: Mgr, a: Action)
    requires Unfinished(m.t) && !a.DoTeardown? && !a.DoRestart?
    ensures Unfinished(Act(m, a).0.t) && forall e | e in Act(m, a).1 :: !Grants(e)
  {
    if a.DoPublish? { assert Act(m, a) == (m, []); }
    else if a.DoCommit? { CommitBlocked(m.d, m.t, a.memberOk, a.pinOk, a.clearOk); }
    else if a.DoSignal? { SignalKeepsOut(m.d, m.t, a.id, a.sid, a.to, a.caller, a.ok); }
    else if a.DoGossip? || a.DoAdmit? || a.DoPrepare? || a.DoDrop? || a.DoDepart? || a.DoJoin? || a.DoRestore? {
      TrustBlocked(m, a);
    } else {
      DeskKeepsIdentity(m, a);
      OnlyPublishing(m, a);
    }
  }

  lemma CommitBlocked(d: Desk, t: Trust, x: bool, y: bool, z: bool)
    requires Unfinished(t)
    ensures var (_, t', es) := Commit(d, t, x, y, z); t' == t && es == []
  {
  }

  lemma SignalKeepsOut(d: Desk, t: Trust, id: InviteId, sid: nat, to: InviteState, caller: Uuid, ok: bool)
    requires Unfinished(t)
    ensures var (_, t', es) := Signal(d, t, id, sid, to, caller, ok); t' == t && forall e | e in es :: !Grants(e)
  {
  }

  lemma TrustBlocked(m: Mgr, a: Action)
    requires Unfinished(m.t)
    requires a.DoGossip? || a.DoAdmit? || a.DoPrepare? || a.DoDrop? || a.DoDepart? || a.DoJoin? || a.DoRestore?
    ensures Unfinished(Act(m, a).0.t) && forall e | e in Act(m, a).1 :: !Grants(e)
  {
  }

  lemma OnlyPublishing(m: Mgr, a: Action)
    requires !a.DoPublish?
    ensures forall e | e in Act(m, a).1 :: !e.Published?
  {
  }

  predicate IsTeardown(a: Action) {
    a.DoTeardown?
  }

  ghost predicate UnfinishedAfter(run: seq<Action>, n: nat)
    requires n <= |run|
  {
    Unfinished(Exec(run[..n]).m.t)
  }

  lemma UnfinishedAt(run: seq<Action>, k: nat)
    requires k < |run| && UnfinishedAfter(run, k) && !IsTeardown(run[k]) && !run[k].DoRestart?
    ensures UnfinishedAfter(run, k + 1) && forall e | e in Exec(run).log[k] :: !Grants(e)
  {
    LogAt(run, k);
    ExecStep(run, k);
    UnfinishedStep(Exec(run[..k]).m, run[k]);
  }

  /**
   * After a teardown that could not be finished the node stays out and gains no trust, whatever regions
   * run, until the teardown is tried again or the process restarts.
   */
  lemma {:induction false} UnfinishedStaysOut(run: seq<Action>, k: nat, n: nat)
    requires k <= n <= |run| && UnfinishedAfter(run, k)
    requires forall j | k <= j < n :: !IsTeardown(run[j]) && !run[j].DoRestart?
    ensures UnfinishedAfter(run, n)
    ensures forall j, e | k <= j < n && e in Exec(run).log[j] :: !Grants(e)
    decreases n - k
  {
    if k < n {
      UnfinishedAt(run, k);
      UnfinishedStaysOut(run, k + 1, n);
    }
  }

  // ---- A teardown that cannot begin ----

  /** The marker of an earlier teardown is on disk, and memory has forgotten it. */
  predicate Forgotten(t: Trust) {
    t.marker && !t.teardownPending
  }

  /** Only a teardown that could not begin forgets one that is unfinished. */
  lemma {:induction false} OnlyFailedBeginForgets(run: seq<Action>)
    requires forall k | 0 <= k < |run| :: run[k].DoTeardown? ==> run[k].beginOk
    ensures !Forgotten(Exec(run).m.t)
  {
    if run != [] {
      var init := run[..|run| - 1];
      assert forall k | 0 <= k < |init| :: init[k] == run[k];
      OnlyFailedBeginForgets(init);
      ForgetStep(Exec(init).m, run[|run| - 1]);
    }
  }

  lemma ForgetStep(m: Mgr, a: Action)
    requires !Forgotten(m.t) && (a.DoTeardown? ==> a.beginOk)
    ensures !Forgotten(Act(m, a).0.t)
  {
    if !a.DoJoin? && !a.DoRestore? && !a.DoTeardown? && !a.DoRestart? { KeepsIdentity(m, a); }
  }

  /** A join lasts over a restart exactly when no marker of an earlier teardown was left behind. */
  lemma JoinLastsExactlyWhen(m: Mgr, cid: string, epoch: nat, keep: set<Uuid>, members: map<Uuid, Member>,
          retired: bool)
    requires !m.t.teardownPending && cid != "" && epoch > m.t.activated
    ensures var joined := Act(m, DoJoin(cid, epoch, true)).0;
            var t := Act(joined, DoRestart(keep, members, retired)).0.t;
            && (t.clusterId == cid <==> !Forgotten(m.t))
            && (t.admission == (cid, epoch) <==> !Forgotten(m.t))
  {
    var joined := Act(m, DoJoin(cid, epoch, true)).0;
    if m.t.marker {
      RestartFinishes(joined, keep, members, retired);
    } else {
      RestartResumes(joined, keep, members, retired);
    }
  }

  const FORGETFUL: seq<Action> := [
    DoJoin("c", 1, true),                     // a member of c
    DoTeardown(true, false, {}, true, true),  // leaves, but its admission cannot be cleared
    DoTeardown(false, true, {}, true, true),  // tries again, and the journal cannot be written
    DoJoin("d", 2, true)]                     // joins d

  /**
   * It happens: leave unfinished, a retry that cannot begin, a join, a restart, and the node is out of
   * the new cluster.
   */
  lemma ForgottenTeardownUndoesJoin(keep: set<Uuid>, members: map<Uuid, Member>)
    ensures var m := Exec(FORGETFUL).m;
            var t := Act(m, DoRestart(keep, members, false)).0.t;
            && m.t.clusterId == "d" && m.t.admission == ("d", 2) && Out(t) && t.admission == ("", 0)
  {
    var r := FORGETFUL;
    ExecStep(r, 0);
    ExecStep(r, 1);
    ExecStep(r, 2);
    ExecStep(r, 3);
    assert r[..0] == [] && r[..4] == r;
    var t1 := Exec(r[..1]).m.t;
    assert t1.admission == ("c", 1) && t1.activated == 1 && !t1.teardownPending;
    var t2 := Exec(r[..2]).m.t;
    assert t2.teardownPending && t2.marker && t2.activated == 1;
    var t3 := Exec(r[..3]).m.t;
    assert !t3.teardownPending && t3.marker && t3.activated == 1;
    RestartFinishes(Exec(r).m, keep, members, false);
  }
}
