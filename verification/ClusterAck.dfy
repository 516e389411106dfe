/**
 * The end of the wait for a joiner's acknowledgment. Whether the joiner acknowledges
 * or the wait runs out, the pairing is settled from that region on: the session is
 * gone, and no failure reported later rolls the pairing back.
 */
module ClusterAck {
  import opened Options
  import opened Cluster
  import opened ClusterRuns
  import opened ClusterOutcome

  /** The committed peer of a paired invite acknowledges it while its session waits for that. */
  predicate Acknowledges(d: Desk, id: InviteId, sid: nat, caller: Uuid) {
    && d.holder == Idle && SessionOf(d, id, sid) && id in d.invites && d.invites[id].state == Paired
    && d.table[sid].awaitingAck && d.table[sid].peer.Some? && d.table[sid].peer.value.uuid == caller
  }

  /** The region ends the wait of a paired invite: its acknowledgment, or the sweep after the cutoff. */
  predicate EndsWait(d: Desk, a: Action, id: InviteId) {
    || (a.DoAck? && a.id == id && Acknowledges(d, id, a.sid, a.caller))
    || (a.DoExpire? && d.holder == Idle && id in d.invites && d.invites[id].state == Paired
        && AckLapsed(d, id, a.cutoff, a.busy))
  }

  /** Paired with this record, no session, nothing waiting for an ack, and no operation under way about it. */
  ghost predicate Settled(d: Desk, id: InviteId, i: Invite) {
    && id in d.invites && d.invites[id] == i && i.state == Paired && id !in d.sessions
    && (forall k | 0 <= k < |d.table| && d.table[k].inviteId == id :: !d.table[k].awaitingAck)
    && !(d.holder.Closing? && d.holder.id == id)
  }

  lemma OnlyOneWaits(d: Desk, id: InviteId, sid: nat, k: nat)
    requires DeskSound(d) && SessionOf(d, id, sid) && d.table[sid].awaitingAck
    requires k < |d.table| && d.table[k].inviteId == id && d.table[k].awaitingAck
    ensures k == sid
  {
  }

  lemma AckSettles(d: Desk, id: InviteId, sid: nat, caller: Uuid)
    requires DeskSound(d) && Acknowledges(d, id, sid, caller)
    ensures Settled(Ack(d, id, sid, caller).0, id, d.invites[id]) && Ack(d, id, sid, caller).1 == [Acked(id)]
  {
    var d' := Ack(d, id, sid, caller).0;
    forall k | 0 <= k < |d'.table| && d'.table[k].inviteId == id ensures !d'.table[k].awaitingAck {
      if d.table[k].awaitingAck { OnlyOneWaits(d, id, sid, k); }
    }
  }

  lemma SweepSettles(d: Desk, id: InviteId, cutoff: int, busy: set<InviteId>)
    requires DeskSound(d) && SessionsCurrent(d) && EndsWait(d, DoExpire(cutoff, busy), id)
    ensures Settled(Expire(d, cutoff, busy), id, d.invites[id])
  {
    var d', sid := Expire(d, cutoff, busy), d.sessions[id];
    assert SessionCurrent(d, id, sid);
    forall k | 0 <= k < |d'.table| && d'.table[k].inviteId == id ensures !d'.table[k].awaitingAck {
      if d.table[k].awaitingAck { OnlyOneWaits(d, id, sid, k); }
    }
  }

  /** An acknowledgment by anyone else, or of anything else, changes nothing and logs nothing. */
  lemma OtherAckIsIgnored(m: Mgr, id: InviteId, sid: nat, caller: Uuid)
    requires !Acknowledges(m.d, id, sid, caller)
    ensures Act(m, DoAck(id, sid, caller)) == (m, [])
  {
  }

  lemma WaitEnds(m: Mgr, a: Action, id: InviteId)
    requires DeskSound(m.d) && SessionsCurrent(m.d) && EndsWait(m.d, a, id)
    ensures Settled(Act(m, a).0.d, id, m.d.invites[id]) && forall u :: Refused(id, u) !in Act(m, a).1
  {
    if a.DoAck? { AckSettles(m.d, id, a.sid, a.caller); } else { SweepSettles(m.d, id, a.cutoff, a.busy); }
  }

  lemma OpeningKeeps(m: Mgr, a: Action, id: InviteId, i: Invite)
    requires DeskSound(m.d) && Settled(m.d, id, i) && (a.DoPublish? || a.DoRegister? || a.DoPublishPin? || a.DoAbandon?)
    ensures Settled(Act(m, a).0.d, id, i)
  {
  }

  lemma CloseKeeps(d: Desk, gone: bool, now: int, id: InviteId, i: Invite)
    requires DeskSound(d) && Settled(d, id, i)
    ensures Settled(Close(d, gone, now), id, i)
  {
  }

  lemma CommitKeeps(d: Desk, t: Trust, x: bool, y: bool, z: bool, id: InviteId, i: Invite)
    requires DeskSound(d) && Settled(d, id, i)
    ensures Settled(Commit(d, t, x, y, z).0, id, i)
  {
  }

  lemma SignalKeeps(d: Desk, t: Trust, x: InviteId, sid: nat, to: InviteState, caller: Uuid, ok: bool, id: InviteId,
          i: Invite)
    requires DeskSound(d) && Settled(d, id, i)
    ensures var (d', _, es) := Signal(d, t, x, sid, to, caller, ok);
            Settled(d', id, i) && forall u :: Refused(id, u) !in es
  {
  }

  lemma SweepKeeps(d: Desk, cutoff: int, busy: set<InviteId>, id: InviteId, i: Invite)
    requires DeskSound(d) && Settled(d, id, i)
    ensures Settled(Expire(d, cutoff, busy), id, i)
  {
  }

  /** No region but a restart unsettles a settled pairing. */
  lemma SettledStep(m: Mgr, a: Action, id: InviteId, i: Invite)
    requires DeskSound(m.d) && Settled(m.d, id, i) && !a.DoRestart?
    ensures Settled(Act(m, a).0.d, id, i) && forall u :: Refused(id, u) !in Act(m, a).1
  {
    if a.DoSignal? { SignalKeeps(m.d, m.t, a.id, a.sid, a.to, a.caller, a.ok, id, i); }
    else {
      forall u ensures Refused(id, u) !in Act(m, a).1 { OnlySignalsRefuse(m, a, id, u); }
      if a.DoPublish? || a.DoRegister? || a.DoPublishPin? || a.DoAbandon? { OpeningKeeps(m, a, id, i); }
      else if a.DoClose? { CloseKeeps(m.d, a.gone, a.now, id, i); }
      else if a.DoCommit? { CommitKeeps(m.d, m.t, a.memberOk, a.pinOk, a.clearOk, id, i); }
      else if a.DoExpire? { SweepKeeps(m.d, a.cutoff, a.busy, id, i); }
    }
  }

  lemma OnlySignalsRefuse(m: Mgr, a: Action, id: InviteId, u: Uuid)
    requires !a.DoSignal?
    ensures Refused(id, u) !in Act(m, a).1
  {
    if Refused(id, u) in Act(m, a).1 { RefusalMeans(m, a, id, u); }
  }

  ghost predicate NotRefused(es: seq<Event>, id: InviteId) {
    forall u :: Refused(id, u) !in es
  }

  /** No region from k up to n accepts a failure of the invite. */
  ghost predicate NeverRefused(log: seq<seq<Event>>, id: InviteId, k: nat, n: nat)
    requires n <= |log|
  {
    forall j | k <= j < n :: NotRefused(log[j], id)
  }

  lemma EndsAt(run: seq<Action>, k: nat, id: InviteId)
    requires k < |run| && EndsWait(Exec(run[..k]).m.d, run[k], id)
    ensures Settled(Exec(run[..k + 1]).m.d, id, Exec(run[..k]).m.d.invites[id])
    ensures NotRefused(Exec(run).log[k], id)
  {
    var m := Exec(run[..k]).m;
    EveryDeskSound(run[..k]);
    EverySessionIsCurrent(run[..k]);
    LogAt(run, k);
    ExecStep(run, k);
    WaitEnds(m, run[k], id);
  }

  lemma StaysAt(run: seq<Action>, k: nat, id: InviteId, i: Invite)
    requires k < |run| && Restarted !in Exec(run).log[k] && Settled(Exec(run[..k]).m.d, id, i)
    ensures Settled(Exec(run[..k + 1]).m.d, id, i)
    ensures NotRefused(Exec(run).log[k], id)
  {
    var m := Exec(run[..k]).m;
    EveryDeskSound(run[..k]);
    LogAt(run, k);
    ExecStep(run, k);
    RestartLogged(m, run[k]);
    SettledStep(m, run[k], id, i);
  }

  /** Region k of the run ends the wait of this invite, whose record is i. */
  ghost predicate WaitEndsAt(run: seq<Action>, k: nat, id: InviteId, i: Invite)
    requires k < |run|
  {
    var d := Exec(run[..k]).m.d;
    EndsWait(d, run[k], id) && d.invites[id] == i
  }

  /** After n regions the pairing is settled with record i. */
  ghost predicate SettledAfter(run: seq<Action>, n: nat, id: InviteId, i: Invite)
    requires n <= |run|
  {
    Settled(Exec(run[..n]).m.d, id, i)
  }

  /** The events of each region of the run. */
  ghost predicate LogOf(run: seq<Action>, log: seq<seq<Event>>) {
    |log| == |run| && log == Exec(run).log
  }

  lemma EndsThenSettles(run: seq<Action>, log: seq<seq<Event>>, k: nat, id: InviteId, i: Invite)
    requires LogOf(run, log) && k < |run| && WaitEndsAt(run, k, id, i)
    ensures SettledAfter(run, k + 1, id, i) && NotRefused(log[k], id)
  {
    EndsAt(run, k, id);
  }

  lemma OneMoreRegion(run: seq<Action>, log: seq<seq<Event>>, k: nat, id: InviteId, i: Invite)
    requires LogOf(run, log) && k < |run| && Restarted !in log[k] && SettledAfter(run, k, id, i)
    ensures SettledAfter(run, k + 1, id, i) && NotRefused(log[k], id)
  {
    StaysAt(run, k, id, i);
  }

  lemma {:induction false} StaysSettled(run: seq<Action>, log: seq<seq<Event>>, k: nat, n: nat, id: InviteId,
          i: Invite)
    requires |log| == |run| && LogOf(run, log) && k <= n <= |run| && NoRestart(log, k, n) && SettledAfter(run, k, id, i)
    ensures SettledAfter(run, n, id, i) && NeverRefused(log, id, k, n)
    decreases n - k
  {
    if k < n {
      OneMoreRegion(run, log, k, id, i);
      StaysSettled(run, log, k + 1, n, id, i);
    }
  }

  /**
   * Read off the region and not off the log: once the wait of a paired invite has ended, by the
   * acknowledgment of its committed peer or by the sweep, its session is gone, and in every
   * continuation without a restart the invite keeps its record and no failure of it is accepted.
   */
  lemma SettledIsFinal(run: seq<Action>, log: seq<seq<Event>>, k: nat, n: nat, id: InviteId, i: Invite)
    requires |log| == |run| && LogOf(run, log)
    requires k < n <= |run| && NoRestart(log, k, n) && WaitEndsAt(run, k, id, i)
    ensures SettledAfter(run, n, id, i) && NeverRefused(log, id, k, n)
  {
    EndsThenSettles(run, log, k, id, i);
    StaysSettled(run, log, k + 1, n, id, i);
  }

  /** An acknowledgment in the log was given by the peer committed for that invite, in this process. */
  lemma AckIsThePeers(run: seq<Action>, k: nat, id: InviteId)
    requires k < |run| && Acked(id) in Exec(run).log[k]
    ensures run[k].DoAck? && run[k].id == id
    ensures exists c, epoch, cid | 0 <= c < k :: CommittedUnacked(Exec(run).log, k, c, id, run[k].caller, epoch, cid)
  {
    LogAt(run, k);
    var d := Exec(run[..k]).m.d;
    AckMeans(Exec(run[..k]).m, run[k], id);
    EveryRunLogged(run[..k]);
    AckBehind(Exec(run).log, k, d, id, run[k].sid, run[k].caller);
  }

  lemma AckMeans(m: Mgr, a: Action, id: InviteId)
    requires Acked(id) in Act(m, a).1
    ensures a.DoAck? && a.id == id && Acknowledges(m.d, id, a.sid, a.caller)
  {
  }

  lemma AckBehind(log: seq<seq<Event>>, k: nat, d: Desk, id: InviteId, sid: nat, caller: Uuid)
    requires k <= |log| && Logged(log[..k], d) && Acknowledges(d, id, sid, caller)
    ensures exists c, epoch, cid | 0 <= c < k :: CommittedUnacked(log, k, c, id, caller, epoch, cid)
  {
    var s := d.table[sid];
    assert CommittedBy(log[..k], s);
    var c: nat :| CommittedAt(log[..k], s, c);
    assert log[..k][c] == log[c];
    forall i | c < i < k ensures Acked(id) !in log[i] && Restarted !in log[i] {
      assert log[..k][i] == log[i];
    }
    assert CommittedUnacked(log, k, c, id, caller, s.peer.value.epoch, s.clusterId);
  }

  // ---- The sweep ----

  predicate WaitsSince(d: Desk, id: InviteId, cutoff: int) {
    id in d.sessions && d.sessions[id] < |d.table| && d.table[d.sessions[id]].awaitingAck
    && d.table[d.sessions[id]].created <= cutoff && d.table[d.sessions[id]].created != 0
  }

  /**
   * After a sweep nothing is overdue: no pending invite and no unlocked wait for an ack at or before
   * the cutoff is left; the overdue invites are Expired without a PIN, and all others keep their record.
   * A session goes exactly if its invite lapsed, or it waits, unlocked, since a set time up to the cutoff.
   */
  lemma SweepLeavesNothingOverdue(d: Desk, cutoff: int, busy: set<InviteId>)
    requires d.holder == Idle
    ensures var d' := Expire(d, cutoff, busy);
            && (forall id :: !InviteLapsed(d', id, cutoff) && !AckLapsed(d', id, cutoff, busy))
            && d'.invites.Keys == d.invites.Keys
            && (forall id | id in d.invites :: d'.invites[id] ==
                  if InviteLapsed(d, id, cutoff) then Invite(Expired, None, d.invites[id].created) else d.invites[id])
            && d'.sessions.Keys == (set id | id in d.sessions && !InviteLapsed(d, id, cutoff)
                                             && (id in busy || !WaitsSince(d, id, cutoff)))
            && (forall id | id in d'.sessions :: d'.sessions[id] == d.sessions[id])
  {
    var d' := Expire(d, cutoff, busy);
    forall id ensures !AckLapsed(d', id, cutoff, busy) {
      if id in d'.sessions && d'.sessions[id] < |d'.table| { assert d'.sessions[id] == d.sessions[id]; }
    }
  }
}
