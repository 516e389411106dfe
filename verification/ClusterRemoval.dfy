/**
 * A removed admission stays removed. nodes:remove stores a proof of the removal and
 * then drops the pin; while the proof is held no pairing can pin that admission
 * again. The proof can be superseded between the two regions, and the last theorem
 * says exactly when that matters.
 */
module ClusterRemoval {
  import opened Options
  import opened Cluster
  import opened ClusterRuns

  // ---- Proof epochs only grow ----

  /** In memory as on disk, and the epoch of a held proof never goes down. */
  ghost predicate ProofsGrow(t: Trust, t': Trust) {
    t'.diskProofs == t'.proofs && forall u | u in t.proofs && u in t'.proofs :: t.proofs[u].epoch <= t'.proofs[u].epoch
  }

  lemma PutGrows(t: Trust, u: Uuid, p: Proof, authentic: bool, ok: bool)
    ensures var put := PutProof(t.proofs, u, p, authentic, ok);
            put.Some? ==> ProofsGrow(t, t.(proofs := put.value, diskProofs := put.value))
  {
  }

  lemma GossipGrows(t: Trust, u: Uuid, p: Proof, putOk: bool, clearOk: bool, removeOk: bool)
    requires t.diskProofs == t.proofs
    ensures ProofsGrow(t, Gossip(t, u, p, putOk, clearOk, removeOk))
  {
    PutGrows(t, u, p, u in t.pins && t.pins[u].epoch == p.epoch, putOk);
  }

  lemma PrepareGrows(t: Trust, op: nat, u: Uuid, n: int, es: seq<string>, ok: bool)
    requires t.diskProofs == t.proofs
    ensures ProofsGrow(t, Prepare(t, op, u, n, es, ok).0)
  {
    if Removable(t, u) { PutGrows(t, u, Proof(t.clusterId, t.members[u].epoch, n, es), true, ok); }
  }

  lemma DepartGrows(t: Trust, self: Uuid, n: int, es: seq<string>, ok: bool)
    requires t.diskProofs == t.proofs
    ensures ProofsGrow(t, Depart(t, self, n, es, ok))
  {
    PutGrows(t, self, Proof(t.admission.0, t.admission.1, n, es), true, ok);
  }

  lemma EnrollGrows(t: Trust, p: Peer, memberOk: bool, pinOk: bool, clearOk: bool)
    requires t.diskProofs == t.proofs
    ensures ProofsGrow(t, Enroll(t, p, memberOk, pinOk, clearOk).0)
  {
  }

  lemma CommitGrows(d: Desk, t: Trust, memberOk: bool, pinOk: bool, clearOk: bool)
    requires t.diskProofs == t.proofs
    ensures ProofsGrow(t, Commit(d, t, memberOk, pinOk, clearOk).1)
  {
    if d.holder.Checked? { EnrollGrows(t, d.holder.peer, memberOk, pinOk, clearOk); }
  }

  /** Every region keeps memory and disk equal, and lowers no held proof's epoch. */
  lemma ProofEpochsGrow(m: Mgr, a: Action)
    requires m.t.diskProofs == m.t.proofs
    ensures ProofsGrow(m.t, Act(m, a).0.t)
  {
    if a.DoGossip? || a.DoPrepare? || a.DoDepart? { StoringGrows(m, a); }
    else if a.DoCommit? || a.DoAdmit? { PinningGrows(m, a); }
    else { OtherProofs(m, a); }
  }

  /** The regions that store a proof. */
  lemma StoringGrows(m: Mgr, a: Action)
    requires (a.DoGossip? || a.DoPrepare? || a.DoDepart?) && m.t.diskProofs == m.t.proofs
    ensures ProofsGrow(m.t, Act(m, a).0.t)
  {
    if a.DoGossip? { GossipGrows(m.t, a.uuid, a.p, a.putOk, a.clearOk, a.removeOk); }
    else if a.DoPrepare? { PrepareGrows(m.t, a.op, a.uuid, a.tombstone, a.endorsements, a.ok); }
    else { DepartGrows(m.t, a.uuid, a.tombstone, a.endorsements, a.ok); }
  }

  /** The regions that pin an admission and may clear a proof. */
  lemma PinningGrows(m: Mgr, a: Action)
    requires (a.DoCommit? || a.DoAdmit?) && m.t.diskProofs == m.t.proofs
    ensures ProofsGrow(m.t, Act(m, a).0.t)
  {
    if a.DoCommit? { CommitGrows(m.d, m.t, a.memberOk, a.pinOk, a.clearOk); }
    else { EnrollGrows(m.t, Peer(a.uuid, a.epoch, a.cert), a.memberOk, a.pinOk, a.clearOk); }
  }

  predicate ProofsKeptOrCleared(t: Trust, t': Trust) {
    t'.diskProofs == t'.proofs && (t'.proofs == t.proofs || t'.proofs == map[])
  }

  /** The remaining regions leave the proofs as they are, or clear them all. */
  lemma OtherProofs(m: Mgr, a: Action)
    requires !a.DoGossip? && !a.DoPrepare? && !a.DoDepart? && !a.DoCommit? && !a.DoAdmit?
    requires m.t.diskProofs == m.t.proofs
    ensures ProofsKeptOrCleared(m.t, Act(m, a).0.t)
  {
    if a.DoSignal? {
      SignalKeepsProofs(m.d, m.t, a.id, a.sid, a.to, a.caller, a.ok);
    } else if DeskOp(a) {
      DeskOnlyTrust(m, a);
    } else {
      MembershipProofs(m, a);
    }
  }

  lemma MembershipProofs(m: Mgr, a: Action)
    requires a.DoJoin? || a.DoRestore? || a.DoDrop? || a.DoTeardown? || a.DoRestart?
    requires m.t.diskProofs == m.t.proofs
    ensures ProofsKeptOrCleared(m.t, Act(m, a).0.t)
  {
    if a.DoJoin? {
      JoinProofs(m.t, a.cid, a.epoch, a.ok);
    } else if a.DoRestore? {
      RestoreProofs(m.t);
    } else if a.DoDrop? {
      DropProofs(m.t, a.op, a.ok);
    } else if a.DoRestart? {
      ReloadProofs(m.t, a.keep, a.members, a.retired);
    }
  }

  lemma ReloadProofs(t: Trust, keep: set<Uuid>, members: map<Uuid, Member>, retired: bool)
    requires t.diskProofs == t.proofs
    ensures ProofsKeptOrCleared(t, Reload(t, keep, members, retired))
  {
  }

  lemma JoinProofs(t: Trust, cid: string, epoch: nat, ok: bool)
    ensures Join(t, cid, epoch, ok).0.proofs == t.proofs && Join(t, cid, epoch, ok).0.diskProofs == t.diskProofs
  {
  }

  lemma RestoreProofs(t: Trust)
    ensures Restore(t).proofs == t.proofs && Restore(t).diskProofs == t.diskProofs
  {
  }

  lemma DropProofs(t: Trust, op: nat, ok: bool)
    ensures Drop(t, op, ok).0.proofs == t.proofs && Drop(t, op, ok).0.diskProofs == t.diskProofs
  {
  }

  /** Regions of the desk alone. */
  predicate DeskOp(a: Action) {
    || a.DoPublish? || a.DoRegister? || a.DoPublishPin? || a.DoAbandon? || a.DoComplete?
    || a.DoClose? || a.DoCancel? || a.DoAck? || a.DoExpire?
  }

  lemma DeskOnlyTrust(m: Mgr, a: Action)
    requires DeskOp(a)
    ensures Act(m, a).0.t == m.t && forall e | e in Act(m, a).1 :: !e.Joined? && !e.TornDown?
  {
  }

  lemma SignalKeepsProofs(d: Desk, t: Trust, id: InviteId, sid: nat, to: InviteState, caller: Uuid, ok: bool)
    ensures var t' := Signal(d, t, id, sid, to, caller, ok).1;
            t'.proofs == t.proofs && t'.diskProofs == t.diskProofs && t'.removals == t.removals
  {
  }

  /** In every reachable state the held proofs are the ones on disk. */
  lemma {:induction false} ProofsOnDisk(run: seq<Action>)
    ensures Exec(run).m.t.diskProofs == Exec(run).m.t.proofs
  {
    if run != [] {
      ProofsOnDisk(run[..|run| - 1]);
      ProofEpochsGrow(Exec(run[..|run| - 1]).m, run[|run| - 1]);
    }
  }

  // ---- While the proof is held ----

  ghost predicate Held(t: Trust, x: Uuid, e: nat, cid: string) {
    x in t.proofs && t.proofs[x].clusterId == cid && t.proofs[x].epoch >= e
  }

  /** The proof is held, this node is still in the cluster, and no newer admission is pinned. */
  ghost predicate Watch(t: Trust, x: Uuid, e: nat, cid: string) {
    && Held(t, x, e, cid) && t.diskProofs == t.proofs
    && t.admission.0 == cid && (t.clusterId == cid || t.clusterId == "")
    && (x in t.pins ==> t.pins[x].epoch <= e) && (x in t.diskPins ==> t.diskPins[x].epoch <= e)
  }

  /** This node stayed in its cluster and no newer admission of x was pinned. */
  ghost predicate Steady(es: seq<Event>, x: Uuid, e: nat) {
    forall k | 0 <= k < |es| ::
      !es[k].TornDown? && !es[k].Joined? && !(es[k].Pinned? && es[k].uuid == x && es[k].epoch > e)
  }

  lemma EnrollKeepsWatch(t: Trust, p: Peer, memberOk: bool, pinOk: bool, clearOk: bool, x: Uuid, e: nat, cid: string)
    requires Watch(t, x, e, cid) && t.clusterId == cid && !Blocks(t.proofs, p.uuid, cid, p.epoch)
    requires var (t', ok) := Enroll(t, p, memberOk, pinOk, clearOk); ok ==> p.uuid != x || t'.pins[x].epoch <= e
    ensures Watch(Enroll(t, p, memberOk, pinOk, clearOk).0, x, e, cid)
  {
  }

  lemma PutKeepsHeld(t: Trust, u: Uuid, p: Proof, authentic: bool, ok: bool, x: Uuid, e: nat, cid: string)
    requires Held(t, x, e, cid) && p.clusterId == cid
    ensures var put := PutProof(t.proofs, u, p, authentic, ok);
            put.Some? ==> Held(t.(proofs := put.value), x, e, cid)
  {
  }

  lemma CommitKeepsWatch(d: Desk, t: Trust, memberOk: bool, pinOk: bool, clearOk: bool, x: Uuid, e: nat, cid: string)
    requires Watch(t, x, e, cid)
    requires Steady(Commit(d, t, memberOk, pinOk, clearOk).2, x, e)
    ensures Watch(Commit(d, t, memberOk, pinOk, clearOk).1, x, e, cid)
  {
    if d.holder.Checked? && MayCommit(d, t) {
      var p, es := d.holder.peer, Commit(d, t, memberOk, pinOk, clearOk).2;
      var (t', ok) := Enroll(t, p, memberOk, pinOk, clearOk);
      if ok { assert es[1] == Pinned(p.uuid, t'.pins[p.uuid].epoch); }
      EnrollKeepsWatch(t, p, memberOk, pinOk, clearOk, x, e, cid);
    }
  }

  lemma AdmitKeepsWatch(t: Trust, u: Uuid, epoch: nat, cert: string, memberOk: bool, pinOk: bool, clearOk: bool,
          x: Uuid, e: nat, cid: string)
    requires Watch(t, x, e, cid)
    requires Steady(Admit(t, u, epoch, cert, memberOk, pinOk, clearOk).1, x, e)
    ensures Watch(Admit(t, u, epoch, cert, memberOk, pinOk, clearOk).0, x, e, cid)
  {
    if !(t.teardownPending || t.clusterId == "" || epoch == 0 || Blocks(t.proofs, u, t.clusterId, epoch)
         || (u in t.pins && epoch <= t.pins[u].epoch)) {
      var (t', ok) := Enroll(t, Peer(u, epoch, cert), memberOk, pinOk, clearOk);
      if ok { assert Admit(t, u, epoch, cert, memberOk, pinOk, clearOk).1[0] == Pinned(u, t'.pins[u].epoch); }
      EnrollKeepsWatch(t, Peer(u, epoch, cert), memberOk, pinOk, clearOk, x, e, cid);
    }
  }

  lemma GossipKeepsWatch(t: Trust, u: Uuid, p: Proof, putOk: bool, clearOk: bool, removeOk: bool, x: Uuid, e: nat,
          cid: string)
    requires Watch(t, x, e, cid)
    ensures Watch(Gossip(t, u, p, putOk, clearOk, removeOk), x, e, cid)
  {
    var authentic := u in t.pins && t.pins[u].epoch == p.epoch;
    var put := PutProof(t.proofs, u, p, authentic, putOk);
    if !(t.teardownPending || t.clusterId == "" || p.clusterId != t.clusterId) && put.Some? {
      var t1 := t.(proofs := put.value, diskProofs := put.value);
      PutKeepsWatch(t, u, p, authentic, putOk, x, e, cid);
      EnforceKeepsWatch(t1, u, p.epoch, clearOk, removeOk, x, e, cid);
      assert Gossip(t, u, p, putOk, clearOk, removeOk) == Enforce(t1, u, p.epoch, clearOk, removeOk);
    } else {
      assert Gossip(t, u, p, putOk, clearOk, removeOk) == t;
    }
  }

  lemma PutKeepsWatch(t: Trust, u: Uuid, p: Proof, authentic: bool, ok: bool, x: Uuid, e: nat, cid: string)
    requires Watch(t, x, e, cid) && p.clusterId == cid
    ensures var put := PutProof(t.proofs, u, p, authentic, ok);
            put.Some? ==> Watch(t.(proofs := put.value, diskProofs := put.value), x, e, cid)
  {
    PutKeepsHeld(t, u, p, authentic, ok, x, e, cid);
  }

  lemma ClearKeepsWatch(t: Trust, u: Uuid, n: nat, ok: bool, x: Uuid, e: nat, cid: string)
    requires Watch(t, x, e, cid) && (u == x ==> n <= e)
    ensures Watch(t.(proofs := ClearProof(t.proofs, u, n, ok), diskProofs := ClearProof(t.diskProofs, u, n, ok)), x, e,
                  cid)
  {
  }

  lemma UnpinKeepsWatch(t: Trust, u: Uuid, x: Uuid, e: nat, cid: string)
    requires Watch(t, x, e, cid)
    ensures Watch(t.(pins := t.pins - {u}, diskPins := if u in t.pins then t.diskPins - {u} else t.diskPins,
                     members := t.members - {u}), x, e, cid)
  {
  }

  lemma EnforceKeepsWatch(t: Trust, u: Uuid, n: nat, clearOk: bool, removeOk: bool, x: Uuid, e: nat, cid: string)
    requires Watch(t, x, e, cid)
    ensures Watch(Enforce(t, u, n, clearOk, removeOk), x, e, cid)
  {
    UnpinKeepsWatch(t, u, x, e, cid);
    if u in t.pins { ClearKeepsWatch(t, u, t.pins[u].epoch, clearOk, x, e, cid); }
  }

  lemma PrepareKeepsWatch(t: Trust, op: nat, u: Uuid, n: int, es: seq<string>, ok: bool, x: Uuid, e: nat, cid: string)
    requires Watch(t, x, e, cid)
    ensures Watch(Prepare(t, op, u, n, es, ok).0, x, e, cid)
  {
    if Removable(t, u) {
      PutKeepsHeld(t, u, Proof(t.clusterId, t.members[u].epoch, n, es), true, ok, x, e, cid);
    }
  }

  lemma DropKeepsWatch(t: Trust, op: nat, ok: bool, x: Uuid, e: nat, cid: string)
    requires Watch(t, x, e, cid)
    ensures Watch(Drop(t, op, ok).0, x, e, cid)
  {
  }

  lemma DepartKeepsWatch(t: Trust, u: Uuid, n: int, es: seq<string>, ok: bool, x: Uuid, e: nat, cid: string)
    requires Watch(t, x, e, cid)
    ensures Watch(Depart(t, u, n, es, ok), x, e, cid)
  {
    PutKeepsHeld(t, u, Proof(t.admission.0, t.admission.1, n, es), true, ok, x, e, cid);
  }

  lemma JoinKeepsWatch(t: Trust, c: string, epoch: nat, ok: bool, x: Uuid, e: nat, cid: string)
    requires Watch(t, x, e, cid) && Steady(Join(t, c, epoch, ok).1, x, e)
    ensures Watch(Join(t, c, epoch, ok).0, x, e, cid)
  {
    JoinIsUnsteady(t, c, epoch, ok, x, e);
  }

  lemma JoinIsUnsteady(t: Trust, c: string, epoch: nat, ok: bool, x: Uuid, e: nat)
    ensures Join(t, c, epoch, ok).1 != [] ==> !Steady(Join(t, c, epoch, ok).1, x, e)
  {
    if Join(t, c, epoch, ok).1 != [] { assert Join(t, c, epoch, ok).1[0].Joined?; }
  }

  lemma RestoreKeepsWatch(t: Trust, x: Uuid, e: nat, cid: string)
    requires Watch(t, x, e, cid)
    ensures Watch(Restore(t), x, e, cid)
  {
  }

  lemma ReloadKeepsWatch(t: Trust, keep: set<Uuid>, members: map<Uuid, Member>, retired: bool, x: Uuid, e: nat,
          cid: string)
    requires Watch(t, x, e, cid) && !t.marker
    ensures Watch(Reload(t, keep, members, retired), x, e, cid)
  {
  }

  /** Watch survives every region that leaves the cluster alone and pins no newer admission. */
  lemma WatchStep(m: Mgr, a: Action, x: Uuid, e: nat, cid: string)
    requires Watch(m.t, x, e, cid) && Steady(Act(m, a).1, x, e)
    ensures Watch(Act(m, a).0.t, x, e, cid)
  {
    match a
    case DoJoin(c, n, ok) => JoinKeepsWatch(m.t, c, n, ok, x, e, cid);
    case DoRestore => RestoreKeepsWatch(m.t, x, e, cid);
    case DoRestart(keep, members, retired) =>
      TearDownIsUnsteady(m, a, x, e);
      ReloadKeepsWatch(m.t, keep, members, retired, x, e, cid);
    case DoTeardown(begun, _, _, _, _) => TearDownIsUnsteady(m, a, x, e);
    case DoCommit(f, g, h) => CommitKeepsWatch(m.d, m.t, f, g, h, x, e, cid);
    case DoSignal(id, sid, to, caller, ok) => SignalKeepsWatch(m.d, m.t, id, sid, to, caller, ok, x, e, cid);
    case DoPrepare(op, u, n, es, ok) => PrepareKeepsWatch(m.t, op, u, n, es, ok, x, e, cid);
    case DoDrop(op, ok) => DropKeepsWatch(m.t, op, ok, x, e, cid);
    case DoDepart(u, n, es, ok) => DepartKeepsWatch(m.t, u, n, es, ok, x, e, cid);
    case DoAdmit(u, n, c, f, g, h) => AdmitKeepsWatch(m.t, u, n, c, f, g, h, x, e, cid);
    case DoGossip(u, p, f, g, h) => GossipKeepsWatch(m.t, u, p, f, g, h, x, e, cid);
    case _ =>
  }

  lemma TearDownIsUnsteady(m: Mgr, a: Action, x: Uuid, e: nat)
    ensures (a.DoRestart? && m.t.marker) || (a.DoTeardown? && a.beginOk) ==> !Steady(Act(m, a).1, x, e)
  {
    if a.DoRestart? && m.t.marker { assert Act(m, a).1[1].TornDown?; }
    if a.DoTeardown? && a.beginOk { assert Act(m, a).1[0].TornDown?; }
  }

  lemma SignalKeepsWatch(d: Desk, t: Trust, id: InviteId, sid: nat, to: InviteState, caller: Uuid, ok: bool, x: Uuid,
          e: nat, cid: string)
    requires Watch(t, x, e, cid)
    ensures Watch(Signal(d, t, id, sid, to, caller, ok).1, x, e, cid)
  {
  }

  // ---- From the drop to a later commit ----

  /** Trust before region n. */
  function TrustAt(run: seq<Action>, n: nat): Trust
    requires n <= |run|
  {
    Exec(run[..n]).m.t
  }

  /** Steady in every region from i up to n. */
  ghost predicate AllSteady(log: seq<seq<Event>>, i: nat, n: nat, x: Uuid, e: nat)
    requires n <= |log|
  {
    forall k | i <= k < n :: Steady(log[k], x, e)
  }

  lemma {:induction false} WatchRun(run: seq<Action>, i: nat, n: nat, x: Uuid, e: nat, cid: string)
    requires i <= n <= |run| && Watch(TrustAt(run, i), x, e, cid) && AllSteady(Exec(run).log, i, n, x, e)
    ensures Watch(TrustAt(run, n), x, e, cid)
    decreases n
  {
    if i < n {
      WatchRun(run, i, n - 1, x, e, cid);
      LogAt(run, n - 1);
      ExecStep(run, n - 1);
      WatchStep(Exec(run[..n - 1]).m, run[n - 1], x, e, cid);
    }
  }

  lemma CommitIsNewer(m: Mgr, a: Action, id: InviteId, x: Uuid, e1: nat, e: nat, cid: string)
    requires Watch(m.t, x, e, cid) && Committed(id, x, e1, cid) in Act(m, a).1
    ensures e1 > e
  {
    assert a.DoCommit?;
  }

  /** While the proof of a removal is held, the admission it removed is not pinned by a pairing. */
  lemma HeldBlocksCommit(run: seq<Action>, i: nat, n: nat, id: InviteId, x: Uuid, e1: nat, e: nat, cid: string)
    requires i <= n < |run| && Watch(TrustAt(run, i), x, e, cid) && AllSteady(Exec(run).log, i, n, x, e)
    requires Committed(id, x, e1, cid) in Exec(run).log[n]
    ensures e1 > e
  {
    WatchRun(run, i, n, x, e, cid);
    LogAt(run, n);
    CommitIsNewer(Exec(run[..n]).m, run[n], id, x, e1, e, cid);
  }

  // ---- From the proof to the drop ----

  /** The removal can no longer drop anything: this node's admission is another one, or was torn down. */
  ghost predicate Stale(t: Trust, r: Removal) {
    t.admission != (r.clusterId, r.selfEpoch) || (t.tornDown && t.clusterId != r.clusterId)
  }

  /** A newer admission was pinned after region j. */
  ghost predicate ReadmittedSince(log: seq<seq<Event>>, j: nat, x: Uuid, e: nat) {
    exists i, e' | j < i < |log| :: e' > e && Pinned(x, e') in log[i]
  }

  /** The removal was prepared in region j, and its proof is held unless one of the two exceptions applies. */
  ghost predicate RemovalAt(log: seq<seq<Event>>, t: Trust, op: nat, r: Removal, j: nat) {
    && j < |log| && Prepared(op, r.uuid, r.epoch) in log[j]
    && (Stale(t, r) || Watch(t, r.uuid, r.epoch, r.clusterId)
        || Shadowed(op, r.uuid) in log[j] || ReadmittedSince(log, j, r.uuid, r.epoch))
  }

  ghost predicate RemovalSound(log: seq<seq<Event>>, t: Trust, op: nat, r: Removal) {
    r.clusterId != "" && r.selfEpoch != 0 && r.selfEpoch <= t.activated && exists j :: RemovalAt(log, t, op, r, j)
  }

  /** Every pin in use is the one in its file. */
  ghost predicate PinsOnDisk(t: Trust) {
    forall u | u in t.pins :: u in t.diskPins && t.diskPins[u] == t.pins[u]
  }

  ghost predicate TrustSound(t: Trust) {
    t.admission.1 <= t.activated && t.diskProofs == t.proofs && PinsOnDisk(t)
  }

  /** What a region does to this node's own admission and to the removals under way. */
  ghost predicate IdentityStep(t: Trust, t': Trust, es: seq<Event>) {
    && TrustSound(t') && t'.activated >= t.activated
    && (t'.admission == t.admission || t'.admission.0 == "" || t'.admission.1 > t.activated)
    && (t.tornDown
        ==> t'.tornDown && (t'.clusterId == t.clusterId || t'.clusterId == "" || t'.admission.1 > t.activated))
    && (forall c :: Joined(c) in es ==> t'.admission.1 > t.activated)
    && (TornDown in es ==> t'.tornDown && t'.clusterId == "")
    && (forall op | op in t'.removals ::
          || (op in t.removals && t'.removals[op] == t.removals[op])
          || Began(t', op, t'.removals[op], es))
  }

  /** A removal prepared in this region. */
  ghost predicate Began(t: Trust, op: nat, r: Removal, es: seq<Event>) {
    && t.admission == (r.clusterId, r.selfEpoch) && r.clusterId != "" && r.selfEpoch != 0
    && Prepared(op, r.uuid, r.epoch) in es && (Shadowed(op, r.uuid) in es || Watch(t, r.uuid, r.epoch, r.clusterId))
  }

  lemma EnrollIdentity(t: Trust, p: Peer, memberOk: bool, pinOk: bool, clearOk: bool, es: seq<Event>)
    requires TrustSound(t) && TornDown !in es && forall c :: Joined(c) !in es
    ensures IdentityStep(t, Enroll(t, p, memberOk, pinOk, clearOk).0, es)
  {
  }

  lemma CommitIdentity(d: Desk, t: Trust, memberOk: bool, pinOk: bool, clearOk: bool)
    requires TrustSound(t)
    ensures var (d', t', es) := Commit(d, t, memberOk, pinOk, clearOk); IdentityStep(t, t', es)
  {
    var (d', t', es) := Commit(d, t, memberOk, pinOk, clearOk);
    if d.holder.Checked? && MayCommit(d, t) {
      EnrollIdentity(t, d.holder.peer, memberOk, pinOk, clearOk, es);
    }
  }

  lemma SignalIdentity(d: Desk, t: Trust, id: InviteId, sid: nat, to: InviteState, caller: Uuid, ok: bool)
    requires TrustSound(t)
    ensures IdentityStep(t, Signal(d, t, id, sid, to, caller, ok).1, Signal(d, t, id, sid, to, caller, ok).2)
  {
    if Refuses(d, id, sid, to, caller) {
      RollBackIdentity(t, d.table[sid].clusterId, d.table[sid].peer.value, ok, [Refused(id, caller)]);
    } else {
      SameIdentity(t, t, []);
    }
  }

  lemma RollBackIdentity(t: Trust, cid: string, p: Peer, ok: bool, es: seq<Event>)
    requires TrustSound(t) && forall e | e in es :: !e.Joined? && !e.TornDown?
    ensures IdentityStep(t, RollBack(t, cid, p, ok), es)
  {
    var t' := RollBack(t, cid, p, ok);
    assert TrustSound(t');
    SameIdentity(t, t', es);
  }

  lemma PrepareIdentity(t: Trust, op: nat, u: Uuid, n: int, es: seq<string>, ok: bool)
    requires TrustSound(t)
    ensures var (t', ev) := Prepare(t, op, u, n, es, ok); IdentityStep(t, t', ev)
  {
    if op !in t.removals && Removable(t, u) {
      PrepareWatches(t, op, u, n, es, ok);
    }
  }

  /** A prepared removal starts out watched, or shadowed. */
  lemma PrepareWatches(t: Trust, op: nat, u: Uuid, n: int, es: seq<string>, ok: bool)
    requires TrustSound(t) && op !in t.removals && Removable(t, u)
    ensures var (t', ev) := Prepare(t, op, u, n, es, ok);
            op in t'.removals ==> Began(t', op, t'.removals[op], ev)
  {
  }

  lemma EnforceSound(t: Trust, u: Uuid, e: nat, clearOk: bool, removeOk: bool)
    requires TrustSound(t)
    ensures TrustSound(Enforce(t, u, e, clearOk, removeOk))
  {
  }

  lemma EnforceIdentity(t: Trust, t1: Trust, u: Uuid, e: nat, clearOk: bool, removeOk: bool)
    requires TrustSound(t1) && t1 == t.(proofs := t1.proofs, diskProofs := t1.diskProofs)
    ensures IdentityStep(t, Enforce(t1, u, e, clearOk, removeOk), [])
  {
    EnforceSound(t1, u, e, clearOk, removeOk);
    SameIdentity(t, Enforce(t1, u, e, clearOk, removeOk), []);
  }

  lemma GossipIdentity(t: Trust, u: Uuid, p: Proof, putOk: bool, clearOk: bool, removeOk: bool)
    requires TrustSound(t)
    ensures IdentityStep(t, Gossip(t, u, p, putOk, clearOk, removeOk), [])
  {
    var put := PutProof(t.proofs, u, p, u in t.pins && t.pins[u].epoch == p.epoch, putOk);
    if put.Some? {
      EnforceIdentity(t, t.(proofs := put.value, diskProofs := put.value), u, p.epoch, clearOk, removeOk);
    }
  }

  lemma SameIdentity(t: Trust, t': Trust, es: seq<Event>)
    requires TrustSound(t') && t'.clusterId == t.clusterId && t'.admission == t.admission && t'.activated == t.activated
    requires t'.tornDown == t.tornDown && t'.removals == t.removals && forall e | e in es :: !e.Joined? && !e.TornDown?
    ensures IdentityStep(t, t', es)
  {
  }

  lemma AdmitIdentity(t: Trust, u: Uuid, n: nat, c: string, memberOk: bool, pinOk: bool, clearOk: bool)
    requires TrustSound(t)
    ensures var (t', es) := Admit(t, u, n, c, memberOk, pinOk, clearOk); IdentityStep(t, t', es)
  {
    EnrollIdentity(t, Peer(u, n, c), memberOk, pinOk, clearOk, Admit(t, u, n, c, memberOk, pinOk, clearOk).1);
  }

  lemma JoinIdentity(t: Trust, cid: string, epoch: nat, ok: bool)
    requires TrustSound(t)
    ensures IdentityStep(t, Join(t, cid, epoch, ok).0, Join(t, cid, epoch, ok).1)
  {
  }

  lemma RestoreIdentity(t: Trust)
    requires TrustSound(t)
    ensures IdentityStep(t, Restore(t), [])
  {
  }

  lemma DropIdentity(t: Trust, op: nat, ok: bool)
    requires TrustSound(t)
    ensures IdentityStep(t, Drop(t, op, ok).0, Drop(t, op, ok).1)
  {
  }

  lemma DepartIdentity(t: Trust, self: Uuid, n: int, es: seq<string>, ok: bool)
    requires TrustSound(t)
    ensures IdentityStep(t, Depart(t, self, n, es, ok), [])
  {
    var put := PutProof(t.proofs, self, Proof(t.admission.0, t.admission.1, n, es), true, ok);
    ProofsIdentity(t, if put.Some? then put.value else t.proofs);
  }

  lemma ProofsIdentity(t: Trust, ps: map<Uuid, Proof>)
    requires TrustSound(t)
    ensures IdentityStep(t, t.(proofs := ps, diskProofs := ps), []) && IdentityStep(t, t, [])
  {
    SameIdentity(t, t.(proofs := ps, diskProofs := ps), []);
    SameIdentity(t, t, []);
  }

  lemma TearDownIdentity(t: Trust, admissionOk: bool, stuck: set<Uuid>, proofsOk: bool, restOk: bool)
    requires TrustSound(t)
    ensures IdentityStep(t, ClearTrust(t, admissionOk, stuck, proofsOk, restOk), [TornDown])
    ensures IdentityStep(t, t.(teardownPending := false), [])
  {
    SameIdentity(t, t.(teardownPending := false), []);
  }

  lemma StepIdentity(m: Mgr, a: Action)
    requires TrustSound(m.t) && !a.DoRestart?
    ensures IdentityStep(m.t, Act(m, a).0.t, Act(m, a).1)
  {
    match a
    case DoJoin(cid, epoch, ok) => JoinIdentity(m.t, cid, epoch, ok);
    case DoRestore => RestoreIdentity(m.t);
    case DoTeardown(_, f, stuck, g, h) => TearDownIdentity(m.t, f, stuck, g, h);
    case DoDrop(op, ok) => DropIdentity(m.t, op, ok);
    case DoDepart(u, n, es, ok) => DepartIdentity(m.t, u, n, es, ok);
    case DoCommit(f, g, h) => CommitIdentity(m.d, m.t, f, g, h);
    case DoSignal(id, sid, to, caller, ok) => SignalIdentity(m.d, m.t, id, sid, to, caller, ok);
    case DoPrepare(op, u, n, es, ok) => PrepareIdentity(m.t, op, u, n, es, ok);
    case DoAdmit(u, n, c, f, g, h) => AdmitIdentity(m.t, u, n, c, f, g, h);
    case DoGossip(u, p, f, g, h) => GossipIdentity(m.t, u, p, f, g, h);
    case _ => DeskOnlyIdentity(m, a);
  }

  lemma DeskOnlyIdentity(m: Mgr, a: Action)
    requires TrustSound(m.t) && DeskOp(a)
    ensures IdentityStep(m.t, Act(m, a).0.t, Act(m, a).1)
  {
    DeskOnlyTrust(m, a);
    SameIdentity(m.t, m.t, Act(m, a).1);
  }

  lemma StaleStays(t: Trust, t': Trust, es: seq<Event>, r: Removal)
    requires IdentityStep(t, t', es) && Stale(t, r) && r.clusterId != "" && r.selfEpoch != 0
    requires r.selfEpoch <= t.activated
    ensures Stale(t', r)
  {
  }

  /** Leaving the cluster makes a removal stale; a newer pin is on record. */
  lemma Unsteady(log: seq<seq<Event>>, j: nat, t: Trust, t': Trust, es: seq<Event>, r: Removal)
    requires j < |log| && IdentityStep(t, t', es) && !Steady(es, r.uuid, r.epoch)
    requires r.clusterId != "" && r.selfEpoch != 0 && r.selfEpoch <= t.activated
    ensures Stale(t', r) || ReadmittedSince(log + [es], j, r.uuid, r.epoch)
  {
    var k :|
      0 <= k < |es|
      && !(!es[k].TornDown? && !es[k].Joined? && !(es[k].Pinned? && es[k].uuid == r.uuid && es[k].epoch > r.epoch));
    assert es[k] in es;
    if es[k].Pinned? {
      assert Pinned(r.uuid, es[k].epoch) in (log + [es])[|log|];
    }
  }

  lemma ReadmittedExtends(log: seq<seq<Event>>, es: seq<Event>, j: nat, x: Uuid, e: nat)
    requires ReadmittedSince(log, j, x, e)
    ensures ReadmittedSince(log + [es], j, x, e)
  {
    var i, e' :| j < i < |log| && e' > e && Pinned(x, e') in log[i];
    assert Pinned(x, e') in (log + [es])[i];
  }

  lemma RemovalStep(log: seq<seq<Event>>, t: Trust, t': Trust, es: seq<Event>, op: nat, r: Removal)
    requires RemovalSound(log, t, op, r) && IdentityStep(t, t', es)
    requires Watch(t, r.uuid, r.epoch, r.clusterId) && Steady(es, r.uuid, r.epoch)
             ==> Watch(t', r.uuid, r.epoch, r.clusterId)
    ensures RemovalSound(log + [es], t', op, r)
  {
    var j: nat :| RemovalAt(log, t, op, r, j);
    assert (log + [es])[j] == log[j];
    if Stale(t, r) {
      StaleStays(t, t', es, r);
    } else if ReadmittedSince(log, j, r.uuid, r.epoch) {
      ReadmittedExtends(log, es, j, r.uuid, r.epoch);
    } else if !Steady(es, r.uuid, r.epoch) {
      Unsteady(log, j, t, t', es, r);
    }
    assert RemovalAt(log + [es], t', op, r, j);
  }

  lemma {:induction false} EveryRemovalSound(run: seq<Action>)
    ensures var w := Exec(run);
            TrustSound(w.m.t) && forall op | op in w.m.t.removals :: RemovalSound(w.log, w.m.t, op, w.m.t.removals[op])
  {
    if run != [] {
      var w, a := Exec(run[..|run| - 1]), run[|run| - 1];
      EveryRemovalSound(run[..|run| - 1]);
      if a.DoRestart? {
        ReloadSound(w.m, a);
      } else {
        var (m', es) := Act(w.m, a);
        StepIdentity(w.m, a);
        forall op | op in m'.t.removals ensures RemovalSound(w.log + [es], m'.t, op, m'.t.removals[op]) {
          RemovalOf(w.log, w.m, a, m'.t, es, op);
        }
      }
    }
  }

  lemma ReloadSound(m: Mgr, a: Action)
    requires a.DoRestart? && TrustSound(m.t)
    ensures TrustSound(Act(m, a).0.t) && Act(m, a).0.t.removals == map[]
  {
  }

  lemma RemovalOf(log: seq<seq<Event>>, m: Mgr, a: Action, t': Trust, es: seq<Event>, op: nat)
    requires (t', es) == (Act(m, a).0.t, Act(m, a).1) && IdentityStep(m.t, t', es) && op in t'.removals
    requires forall o | o in m.t.removals :: RemovalSound(log, m.t, o, m.t.removals[o])
    ensures RemovalSound(log + [es], t', op, t'.removals[op])
  {
    var r := t'.removals[op];
    if op in m.t.removals && r == m.t.removals[op] {
      if Watch(m.t, r.uuid, r.epoch, r.clusterId) && Steady(es, r.uuid, r.epoch) {
        WatchStep(m, a, r.uuid, r.epoch, r.clusterId);
      }
      RemovalStep(log, m.t, t', es, op, r);
    } else {
      assert (log + [es])[|log|] == es;
      assert RemovalAt(log + [es], t', op, r, |log|);
    }
  }

  // ---- When a drop is final ----

  lemma DropMeans(m: Mgr, a: Action, op: nat, x: Uuid, e: nat, cid: string)
    requires Dropped(op, x, e, cid) in Act(m, a).1
    ensures a == DoDrop(op, true) && op in m.t.removals && StillRemovable(m.t, m.t.removals[op])
    ensures m.t.removals[op].uuid == x && m.t.removals[op].epoch == e && m.t.removals[op].clusterId == cid
    ensures Act(m, a).0 == m.(t := Drop(m.t, op, true).0)
  {
    if !a.DoDrop? { OnlyDropDrops(m, a); }
  }

  lemma OnlyDropDrops(m: Mgr, a: Action)
    requires !a.DoDrop?
    ensures forall e | e in Act(m, a).1 :: !e.Dropped?
  {
  }

  /** Region k dropped what region j had prepared, with its proof still held unless an exception applies. */
  ghost predicate DropOf(log: seq<seq<Event>>, j: nat, k: nat, t': Trust, op: nat, x: Uuid, e: nat, cid: string)
    requires k <= |log|
  {
    && j < k && Prepared(op, x, e) in log[j]
    && (Watch(t', x, e, cid) || Shadowed(op, x) in log[j] || ReadmittedSince(log[..k], j, x, e))
  }

  ghost predicate DropExplained(log: seq<seq<Event>>, k: nat, t': Trust, op: nat, x: Uuid, e: nat, cid: string)
    requires k <= |log|
  {
    exists j: nat :: DropOf(log, j, k, t', op, x, e, cid)
  }

  lemma DropOfRemoval(log: seq<seq<Event>>, k: nat, t: Trust, op: nat)
    requires k <= |log| && op in t.removals && StillRemovable(t, t.removals[op])
    requires RemovalSound(log[..k], t, op, t.removals[op])
    ensures var r := t.removals[op];
            DropExplained(log, k, Drop(t, op, true).0, op, r.uuid, r.epoch, r.clusterId)
  {
    var r := t.removals[op];
    var j: nat :| RemovalAt(log[..k], t, op, r, j);
    assert log[..k][j] == log[j];
    if Watch(t, r.uuid, r.epoch, r.clusterId) { DropKeepsWatch(t, op, true, r.uuid, r.epoch, r.clusterId); }
    assert DropOf(log, j, k, Drop(t, op, true).0, op, r.uuid, r.epoch, r.clusterId);
  }

  /** Every drop was prepared earlier, and its proof is held at the drop unless one of the two exceptions applies. */
  lemma DropHoldsProof(run: seq<Action>, k: nat, op: nat, x: Uuid, e: nat, cid: string)
    requires k < |run| && Dropped(op, x, e, cid) in Exec(run).log[k]
    ensures DropExplained(Exec(run).log, k, TrustAt(run, k + 1), op, x, e, cid)
  {
    LogAt(run, k);
    ExecStep(run, k);
    EveryRemovalSound(run[..k]);
    DropMeans(Exec(run[..k]).m, run[k], op, x, e, cid);
    DropOfRemoval(Exec(run).log, k, Exec(run[..k]).m.t, op);
  }

  /** A newer admission of x was pinned between regions j and n. */
  ghost predicate Readmitted(log: seq<seq<Event>>, j: nat, n: nat, x: Uuid, e: nat)
    requires n <= |log|
  {
    exists i, e' | j < i < n :: e' > e && Pinned(x, e') in log[i]
  }

  /** This node neither left nor joined a cluster in the regions from i up to n. */
  ghost predicate Stayed(log: seq<seq<Event>>, i: nat, n: nat)
    requires n <= |log|
  {
    forall k, q | i <= k < n && 0 <= q < |log[k]| :: !log[k][q].TornDown? && !log[k][q].Joined?
  }

  lemma SteadyUnlessReadmitted(log: seq<seq<Event>>, i: nat, n: nat, x: Uuid, e: nat)
    requires 0 < i <= n <= |log| && Stayed(log, i, n) && !Readmitted(log, i - 1, n, x, e)
    ensures AllSteady(log, i, n, x, e)
  {
    forall k | i <= k < n ensures Steady(log[k], x, e) {
      forall q | 0 <= q < |log[k]|
        ensures !log[k][q].TornDown? && !log[k][q].Joined?
                && !(log[k][q].Pinned? && log[k][q].uuid == x && log[k][q].epoch > e)
      {
        assert log[k][q] in log[k];
        if log[k][q].Pinned? { assert log[k][q] == Pinned(log[k][q].uuid, log[k][q].epoch); }
      }
    }
  }

  /** The removal began in region j, and by region n it had been shadowed or overtaken. */
  ghost predicate Overtaken(log: seq<seq<Event>>, j: nat, n: nat, op: nat, x: Uuid, e: nat)
    requires j < |log| && n <= |log|
  {
    Prepared(op, x, e) in log[j] && (Shadowed(op, x) in log[j] || Readmitted(log, j, n, x, e))
  }

  lemma OvertakenByReturn(log: seq<seq<Event>>, k: nat, n: nat, t': Trust, op: nat, x: Uuid, e: nat, cid: string)
    requires k < n <= |log| && DropExplained(log, k, t', op, x, e, cid) && Stayed(log, k + 1, n)
    requires !(Watch(t', x, e, cid) && AllSteady(log, k + 1, n, x, e))
    ensures exists j | 0 <= j < k :: Overtaken(log, j, n, op, x, e)
  {
    var j: nat :| DropOf(log, j, k, t', op, x, e, cid);
    if Watch(t', x, e, cid) {
      if !Readmitted(log, k, n, x, e) { SteadyUnlessReadmitted(log, k + 1, n, x, e); }
      ReadmittedWider(log, k, j, n, n, x, e);
    } else if Shadowed(op, x) !in log[j] {
      SinceIsReadmitted(log, j, k, n, x, e);
    }
    assert Overtaken(log, j, n, op, x, e);
  }

  /**
   * A removed admission stays removed. If region k of nodes:remove dropped (x, e), and a later
   * pairing in the same cluster committed x at e or lower, then a strictly newer admission of x
   * was pinned after that removal had begun, or the removal's own proof was shadowed by another
   * cluster's. Any disk write may have failed on the way.
   */
  lemma RemovedStaysRemoved(run: seq<Action>, log: seq<seq<Event>>, k: nat, n: nat, op: nat, id: InviteId, x: Uuid,
          e1: nat, e: nat, cid: string)
    requires log == Exec(run).log && k < n < |log| && Dropped(op, x, e, cid) in log[k]
    requires Committed(id, x, e1, cid) in log[n]
    requires Stayed(log, k + 1, n) && e1 <= e
    ensures exists j | 0 <= j < k :: Overtaken(log, j, n, op, x, e)
  {
    var t' := TrustAt(run, k + 1);
    DropHoldsProof(run, k, op, x, e, cid);
    ReturnIsUnwatched(run, k + 1, n, id, x, e1, e, cid);
    OvertakenByReturn(log, k, n, t', op, x, e, cid);
  }

  lemma ReturnIsUnwatched(run: seq<Action>, i: nat, n: nat, id: InviteId, x: Uuid, e1: nat, e: nat, cid: string)
    requires i <= n < |run| && Committed(id, x, e1, cid) in Exec(run).log[n] && e1 <= e
    ensures !(Watch(TrustAt(run, i), x, e, cid) && AllSteady(Exec(run).log, i, n, x, e))
  {
    if Watch(TrustAt(run, i), x, e, cid) && AllSteady(Exec(run).log, i, n, x, e) {
      HeldBlocksCommit(run, i, n, id, x, e1, e, cid);
    }
  }

  lemma ReadmittedWider(log: seq<seq<Event>>, j: nat, j': nat, n: nat, n': nat, x: Uuid, e: nat)
    requires n <= n' <= |log| && j' <= j && Readmitted(log, j, n, x, e)
    ensures Readmitted(log, j', n', x, e)
  {
  }

  lemma SinceIsReadmitted(log: seq<seq<Event>>, j: nat, k: nat, n: nat, x: Uuid, e: nat)
    requires k <= n <= |log| && ReadmittedSince(log[..k], j, x, e)
    ensures Readmitted(log, j, n, x, e)
  {
    var i, e' :| j < i < k && e' > e && Pinned(x, e') in log[..k][i];
    assert Pinned(x, e') in log[i];
  }
}
