/**
 * No pairing outlives a teardown: in every run of the cluster manager, a pin or a
 * member row written for an outbound pairing belongs to an invite published since
 * the last teardown, even if the same cluster was rejoined meanwhile.
 */
module ClusterSafety {
  import opened Options
  import opened Cluster
  import opened ClusterRuns
  import opened ClusterRemoval

  // ---- No pairing outlives a teardown ----

  /** The invite was published in region j, into `cid`, and nothing was torn down since. */
  ghost predicate BegunAt(log: seq<seq<Event>>, id: InviteId, cid: string, j: nat) {
    j < |log| && Published(id, cid) in log[j] && Quiet(log, j + 1, |log|)
  }

  ghost predicate Begun(log: seq<seq<Event>>, id: InviteId, cid: string) {
    exists j :: BegunAt(log, id, cid, j)
  }

  ghost predicate WalkBegun(log: seq<seq<Event>>, d: Desk, id: InviteId)
    requires id in d.walks
  {
    d.walks[id].gen <= d.gen && (d.walks[id].gen == d.gen ==> Begun(log, id, d.walks[id].clusterId))
  }

  ghost predicate WalksBegun(log: seq<seq<Event>>, d: Desk) {
    forall id | id in d.walks :: WalkBegun(log, d, id)
  }

  lemma BegunExtends(log: seq<seq<Event>>, es: seq<Event>, id: InviteId, cid: string)
    requires Begun(log, id, cid) && TornDown !in es && Restarted !in es
    ensures Begun(log + [es], id, cid)
  {
    var j :| BegunAt(log, id, cid, j);
    assert BegunAt(log + [es], id, cid, j);
  }

  /** What a region does to generations and walks. */
  ghost predicate Ages(d: Desk, d': Desk, es: seq<Event>) {
    || d'.walks == map[]
    || (d'.walks == d.walks && d'.gen == d.gen + 1)
    || (&& d'.gen == d.gen && TornDown !in es && Restarted !in es
        && forall id | id in d'.walks ::
             (id in d.walks && d'.walks[id] == d.walks[id])
             || (d'.walks[id].gen == d.gen && Published(id, d'.walks[id].clusterId) in es))
  }

  lemma StepAges(m: Mgr, a: Action)
    ensures Ages(m.d, Act(m, a).0.d, Act(m, a).1)
  {
    if !a.DoPublish? && !a.DoRegister? && !a.DoTeardown? && !a.DoRestart? {
      StepFrame(m, a);
      OnlyTwoTearDown(m, a);
    }
  }

  lemma OnlyTwoTearDown(m: Mgr, a: Action)
    requires !a.DoTeardown? && !a.DoRestart?
    ensures TornDown !in Act(m, a).1 && Restarted !in Act(m, a).1
  {
  }

  lemma WalksStep(log: seq<seq<Event>>, d: Desk, d': Desk, es: seq<Event>)
    requires WalksBegun(log, d) && Ages(d, d', es)
    ensures WalksBegun(log + [es], d')
  {
    forall id | id in d'.walks ensures WalkBegun(log + [es], d', id) {
      if id in d.walks && d'.walks[id] == d.walks[id] {
        assert WalkBegun(log, d, id);
        if d'.gen == d.gen && d.walks[id].gen == d.gen { BegunExtends(log, es, id, d.walks[id].clusterId); }
      } else {
        assert BegunAt(log + [es], id, d'.walks[id].clusterId, |log|);
      }
    }
  }

  lemma {:induction false} EveryWalkBegun(run: seq<Action>)
    ensures WalksBegun(Exec(run).log, Exec(run).m.d)
  {
    if run != [] {
      var w, a := Exec(run[..|run| - 1]), run[|run| - 1];
      EveryWalkBegun(run[..|run| - 1]);
      StepAges(w.m, a);
      WalksStep(w.log, w.m.d, Act(w.m, a).0.d, Act(w.m, a).1);
    }
  }

  /** Only a live session of the current generation gets past the gates of the commit. */
  lemma WriteNeedsSession(m: Mgr, a: Action, id: InviteId, uuid: Uuid, epoch: nat, cid: string)
    requires SessionsCurrent(m.d) && Wrote(id, uuid, epoch, cid) in Act(m, a).1
    ensures id in m.d.walks && m.d.walks[id] == Walk(cid, m.d.gen)
  {
    assert a.DoCommit?;
    assert SessionCurrent(m.d, id, m.d.sessions[id]);
  }

  /**
   * No pairing outlives a teardown. Whatever regions ran in between, a member or pin written
   * for an outbound pairing belongs to an invite published into that same cluster with no
   * teardown and no restart since.
   */
  lemma NoPairingOutlivesTeardown(run: seq<Action>, k: nat, id: InviteId, uuid: Uuid, epoch: nat, cid: string)
    requires k < |run| && Wrote(id, uuid, epoch, cid) in Exec(run).log[k]
    ensures exists j | 0 <= j < k :: Published(id, cid) in Exec(run).log[j] && Quiet(Exec(run).log, j + 1, k)
  {
    var w := Exec(run[..k]);
    LogAt(run, k);
    EverySessionIsCurrent(run[..k]);
    EveryWalkBegun(run[..k]);
    WriteNeedsSession(w.m, run[k], id, uuid, epoch, cid);
    assert WalkBegun(w.log, w.m.d, id);
    var j :| BegunAt(w.log, id, cid, j);
    FromPrefix(run, k, j, id, cid);
  }

  lemma FromPrefix(run: seq<Action>, k: nat, j: nat, id: InviteId, cid: string)
    requires k < |run| && BegunAt(Exec(run[..k]).log, id, cid, j)
    ensures j < k && Published(id, cid) in Exec(run).log[j] && Quiet(Exec(run).log, j + 1, k)
  {
    LogPrefix(run, k);
    var log := Exec(run).log;
    assert log[..k][j] == log[j];
    forall i | j + 1 <= i < k ensures TornDown !in log[i] && Restarted !in log[i] {
      assert log[..k][i] == log[i];
    }
  }

  // ---- The writes are the ones logged ----

  /** u has a pin or a member row that it did not have before. */
  ghost predicate NewlyTrusted(t: Trust, t': Trust, u: Uuid) {
    || (u in t'.pins && !(u in t.pins && t.pins[u] == t'.pins[u]))
    || (u in t'.members && !(u in t.members && t.members[u] == t'.members[u]))
  }

  lemma EnrollTrusts(t: Trust, p: Peer, memberOk: bool, pinOk: bool, clearOk: bool, u: Uuid)
    requires u != p.uuid
    ensures !NewlyTrusted(t, Enroll(t, p, memberOk, pinOk, clearOk).0, u)
  {
  }

  lemma CommitTrusts(d: Desk, t: Trust, memberOk: bool, pinOk: bool, clearOk: bool, u: Uuid)
    requires NewlyTrusted(t, Commit(d, t, memberOk, pinOk, clearOk).1, u)
    ensures exists id, e, cid :: Wrote(id, u, e, cid) in Commit(d, t, memberOk, pinOk, clearOk).2
  {
    var p, es := d.holder.peer, Commit(d, t, memberOk, pinOk, clearOk).2;
    if u != p.uuid { EnrollTrusts(t, p, memberOk, pinOk, clearOk, u); }
    assert es[0] == Wrote(d.holder.id, u, p.epoch, t.clusterId);
  }

  lemma RollBackTrusts(t: Trust, clusterId: string, p: Peer, ok: bool, u: Uuid)
    ensures !NewlyTrusted(t, RollBack(t, clusterId, p, ok), u)
  {
  }

  lemma SignalTrusts(d: Desk, t: Trust, id: InviteId, sid: nat, to: InviteState, caller: Uuid, ok: bool, u: Uuid)
    ensures !NewlyTrusted(t, Signal(d, t, id, sid, to, caller, ok).1, u)
  {
    var t' := Signal(d, t, id, sid, to, caller, ok).1;
    if Refuses(d, id, sid, to, caller) {
      RollBackTrusts(t, d.table[sid].clusterId, d.table[sid].peer.value, ok, u);
    } else {
      assert t' == t;
    }
  }

  lemma RosterTrusts(m: Mgr, a: Action, u: Uuid)
    requires a.DoJoin? || a.DoRestore? || a.DoTeardown? || a.DoPrepare? || a.DoDrop? || a.DoGossip? || a.DoDepart?
    ensures !NewlyTrusted(m.t, Act(m, a).0.t, u)
  {
  }

  /** Roster merging and startup apart, only a logged commit gives a node a pin or a member row. */
  lemma WritesAreLogged(m: Mgr, a: Action, u: Uuid)
    requires !a.DoAdmit? && !a.DoRestart? && NewlyTrusted(m.t, Act(m, a).0.t, u)
    ensures exists id, e, cid :: Wrote(id, u, e, cid) in Act(m, a).1
  {
    if a.DoCommit? {
      CommitTrusts(m.d, m.t, a.memberOk, a.pinOk, a.clearOk, u);
    } else if a.DoSignal? {
      SignalTrusts(m.d, m.t, a.id, a.sid, a.to, a.caller, a.ok, u);
    } else if DeskOp(a) {
      DeskOnlyTrust(m, a);
    } else {
      RosterTrusts(m, a, u);
    }
  }

  /**
   * The same, read off the state: a node newly trusted by a region of pairing was written for an invite
   * no older than the last teardown.
   */
  lemma NewTrustIsCurrent(run: seq<Action>, k: nat, u: Uuid)
    requires k < |run| && !run[k].DoAdmit? && !run[k].DoRestart?
    requires NewlyTrusted(Exec(run[..k]).m.t, Exec(run[..k + 1]).m.t, u)
    ensures exists id, e, cid, j | 0 <= j < k ::
              && Wrote(id, u, e, cid) in Exec(run).log[k]
              && Published(id, cid) in Exec(run).log[j] && Quiet(Exec(run).log, j + 1, k)
  {
    ExecStep(run, k);
    LogAt(run, k);
    WritesAreLogged(Exec(run[..k]).m, run[k], u);
    var id, e, cid :| Wrote(id, u, e, cid) in Act(Exec(run[..k]).m, run[k]).1;
    NoPairingOutlivesTeardown(run, k, id, u, e, cid);
  }
}
