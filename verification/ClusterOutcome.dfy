/**
 * One outcome per outbound invite: a terminal invite keeps its record for ever, and
 * a paired one changes only to failed, on the word of the very peer that was paired
 * and before its acknowledgment.
 */
module ClusterOutcome {
  import opened Options
  import opened Cluster
  import opened ClusterRuns

  predicate Terminal(s: InviteState) {
    s != Pending && s != Paired
  }

  /** The operation in inviteMu still describes the invite it read, unless a teardown deleted it. */
  ghost predicate HolderSound(d: Desk) {
    match d.holder
    case Idle => true
    case Checked(id, sid, read, _) =>
      && id in d.used && SessionOf(d, id, sid) && read.state == Pending && (id in d.invites ==> d.invites[id] == read)
    case Closing(id, sid, read, to) =>
      && id in d.used && SessionOf(d, id, sid) && to != Pending && (id in d.invites ==> d.invites[id] == read)
      && (read.state == Pending || (read.state == Paired && to == Failed))
      && (to == Paired ==> d.table[sid].peer.Some?)
  }

  /** A session waiting for its ack belongs to an invite that can no longer be committed. */
  ghost predicate AckSound(d: Desk, s: Session) {
    s.awaitingAck ==>
      && s.peer.Some? && s.inviteId in d.used && !IsPending(d, s.inviteId)
      && !(d.holder.Checked? && d.holder.id == s.inviteId)
      && !(d.holder.Closing? && d.holder.id == s.inviteId && d.holder.to == Paired)
  }

  ghost predicate DeskSound(d: Desk) {
    && d.invites.Keys <= d.used && HolderSound(d)
    && (forall k | 0 <= k < |d.table| :: AckSound(d, d.table[k]))
    && (forall j, k | 0 <= j < k < |d.table| && d.table[j].awaitingAck && d.table[k].awaitingAck ::
          d.table[j].inviteId != d.table[k].inviteId)
  }

  /** What one region may do to a recorded outcome. */
  ghost predicate OutcomeKept(d: Desk, d': Desk) {
    forall id | id in d.invites && d.invites[id].state != Pending ::
      && id in d'.invites
      && (d'.invites[id] == d.invites[id]
          || (&& d.holder.Closing? && d.holder.id == id && d.holder.read.state == Paired
              && d.invites[id].state == Paired
              && d'.invites[id] == d.invites[id].(state := Failed)))
  }

  ghost predicate GoodStep(d: Desk, d': Desk) {
    DeskSound(d') && OutcomeKept(d, d')
  }

  lemma PublishOp(d: Desk, t: Trust, id: InviteId, cid: string, now: int)
    requires DeskSound(d)
    ensures GoodStep(d, Publish(d, t, id, cid, now).0)
  {
  }

  lemma RegisterOp(d: Desk, cid: string, id: InviteId, now: int)
    requires DeskSound(d)
    ensures GoodStep(d, Register(d, cid, id, now))
  {
  }

  lemma PublishPinOp(d: Desk, id: InviteId, sid: nat, pin: string)
    requires DeskSound(d)
    ensures GoodStep(d, PublishPin(d, id, sid, pin))
  {
  }

  lemma AbandonOp(d: Desk, id: InviteId, sid: nat, rejected: bool)
    requires DeskSound(d)
    ensures GoodStep(d, Abandon(d, id, sid, rejected))
  {
  }

  lemma CheckOp(d: Desk, id: InviteId, sid: nat, parsed: Option<Peer>)
    requires DeskSound(d)
    ensures GoodStep(d, Completed(d, id, sid, parsed)) && GoodStep(d, Cancel(d, id, sid))
  {
  }

  lemma CloseOp(d: Desk, gone: bool, now: int)
    requires DeskSound(d)
    ensures GoodStep(d, Close(d, gone, now))
  {
  }

  lemma AckOp(d: Desk, id: InviteId, sid: nat, caller: Uuid)
    requires DeskSound(d)
    ensures GoodStep(d, Ack(d, id, sid, caller).0)
  {
  }

  lemma ExpireOp(d: Desk, cutoff: int, busy: set<InviteId>)
    requires DeskSound(d)
    ensures GoodStep(d, Expire(d, cutoff, busy))
  {
  }

  lemma CommitOp(d: Desk, t: Trust, memberOk: bool, pinOk: bool, clearOk: bool)
    requires DeskSound(d)
    ensures GoodStep(d, Commit(d, t, memberOk, pinOk, clearOk).0)
  {
    if d.holder.Checked? {
      CommitDeskOp(d, false);
      CommitDeskOp(d, true);
    }
  }

  lemma CommitDeskOp(d: Desk, ok: bool)
    requires DeskSound(d) && d.holder.Checked?
    ensures GoodStep(d, CommitDesk(d, ok))
  {
  }

  lemma SignalOp(d: Desk, t: Trust, id: InviteId, sid: nat, to: InviteState, caller: Uuid, ok: bool)
    requires DeskSound(d)
    ensures GoodStep(d, Signal(d, t, id, sid, to, caller, ok).0)
  {
  }

  lemma ResetOp(d: Desk)
    requires DeskSound(d)
    ensures GoodStep(d, ResetDesk(d))
  {
  }

  /** The regions of an invite before its peer answers. */
  lemma OpeningStep(m: Mgr, a: Action)
    requires DeskSound(m.d) && (a.DoPublish? || a.DoRegister? || a.DoPublishPin? || a.DoAbandon?)
    ensures DeskSound(Act(m, a).0.d) && OutcomeKept(m.d, Act(m, a).0.d)
  {
    if a.DoPublish? { PublishOp(m.d, m.t, a.id, a.cid, a.now); }
    else if a.DoRegister? { RegisterOp(m.d, m.t.clusterId, a.id, a.now); }
    else if a.DoPublishPin? { PublishPinOp(m.d, a.id, a.sid, a.pin); }
    else { AbandonOp(m.d, a.id, a.sid, a.rejected); }
  }

  lemma SoundStep(m: Mgr, a: Action)
    requires DeskSound(m.d)
    ensures DeskSound(Act(m, a).0.d)
    ensures !a.DoRestart? ==> OutcomeKept(m.d, Act(m, a).0.d)
  {
    match a
    case DoPublish(_, _, _) => OpeningStep(m, a);
    case DoRegister(_, _) => OpeningStep(m, a);
    case DoPublishPin(_, _, _) => OpeningStep(m, a);
    case DoAbandon(_, _, _) => OpeningStep(m, a);
    case DoCancel(id, sid) => CheckOp(m.d, id, sid, None);
    case DoComplete(id, sid, parsed) => CheckOp(m.d, id, sid, parsed);
    case DoClose(gone, now) => CloseOp(m.d, gone, now);
    case DoAck(id, sid, caller) => AckOp(m.d, id, sid, caller);
    case DoExpire(cutoff, busy) => ExpireOp(m.d, cutoff, busy);
    case DoCommit(x, y, z) => CommitOp(m.d, m.t, x, y, z);
    case DoSignal(id, sid, to, caller, ok) => SignalOp(m.d, m.t, id, sid, to, caller, ok);
    case DoTeardown(_, _, _, _, _) => ResetOp(m.d);
    case _ =>
  }

  lemma {:induction false} EveryDeskSound(run: seq<Action>)
    ensures DeskSound(Exec(run).m.d)
  {
    if run != [] {
      EveryDeskSound(run[..|run| - 1]);
      SoundStep(Exec(run[..|run| - 1]).m, run[|run| - 1]);
    }
  }

  // ---- Terminal invites ----

  ghost predicate NoRestart(log: seq<seq<Event>>, i: nat, n: nat)
    requires n <= |log|
  {
    forall k | i <= k < n :: Restarted !in log[k]
  }

  lemma RestartLogged(m: Mgr, a: Action)
    ensures Restarted in Act(m, a).1 <==> a.DoRestart?
  {
  }

  /**
   * A canceled, declined, expired, failed or rejected invite keeps its record, PIN included,
   * for as long as the process lives: it is never paired and never gets a PIN.
   */
  lemma {:induction false} TerminalIsFinal(run: seq<Action>, i: nat, n: nat, id: InviteId)
    requires i <= n <= |run| && NoRestart(Exec(run).log, i, n)
    requires id in Exec(run[..i]).m.d.invites && Terminal(Exec(run[..i]).m.d.invites[id].state)
    ensures id in Exec(run[..n]).m.d.invites && Exec(run[..n]).m.d.invites[id] == Exec(run[..i]).m.d.invites[id]
    decreases n - i
  {
    if i < n {
      OutcomeAt(run, i);
      TerminalIsFinal(run, i + 1, n, id);
    }
  }

  /** Region k of a run, seen through what it may do to recorded outcomes. */
  lemma OutcomeAt(run: seq<Action>, k: nat)
    requires k < |run| && Restarted !in Exec(run).log[k]
    ensures OutcomeKept(Exec(run[..k]).m.d, Exec(run[..k + 1]).m.d)
  {
    LogAt(run, k);
    EveryDeskSound(run[..k]);
    ExecStep(run, k);
    RestartLogged(Exec(run[..k]).m, run[k]);
    SoundStep(Exec(run[..k]).m, run[k]);
  }

  // ---- Paired invites ----

  ghost predicate SamePeer(s: Session, s': Session) {
    s'.inviteId == s.inviteId && s'.clusterId == s.clusterId && s'.peer == s.peer
  }

  ghost predicate Commits(es: seq<Event>, s: Session) {
    s.peer.Some? && Committed(s.inviteId, s.peer.value.uuid, s.peer.value.epoch, s.clusterId) in es
  }

  /** The session's commit is in the log, and neither its ack nor a restart came after it. */
  ghost predicate CommittedAt(log: seq<seq<Event>>, s: Session, c: nat) {
    c < |log| && Commits(log[c], s) && forall i | c < i < |log| :: Acked(s.inviteId) !in log[i] && Restarted !in log[i]
  }

  ghost predicate CommittedBy(log: seq<seq<Event>>, s: Session) {
    exists c :: CommittedAt(log, s, c)
  }

  ghost predicate RefusedAt(log: seq<seq<Event>>, id: InviteId, uuid: Uuid, k: nat) {
    k < |log| && Refused(id, uuid) in log[k] && NoRestart(log, k + 1, |log|)
  }

  predicate BecomingPaired(d: Desk) {
    d.holder.Closing? && d.holder.to == Paired && d.holder.sid < |d.table|
  }

  /** Every session waiting for its ack, and the refusal of a paired invite, are accounted for. */
  ghost predicate Logged(log: seq<seq<Event>>, d: Desk) {
    && (forall k | 0 <= k < |d.table| && d.table[k].awaitingAck :: CommittedBy(log, d.table[k]))
    && (BecomingPaired(d) ==> CommittedBy(log, d.table[d.holder.sid]))
    && (d.holder.Closing? && d.holder.read.state == Paired ==> exists u, k :: RefusedAt(log, d.holder.id, u, k))
  }

  /** How one region changes what is accounted for. */
  ghost predicate LogStep(d: Desk, d': Desk, es: seq<Event>) {
    && Restarted !in es
    && (forall k | 0 <= k < |d'.table| && d'.table[k].awaitingAck ::
          && k < |d.table| && SamePeer(d.table[k], d'.table[k]) && Acked(d.table[k].inviteId) !in es
          && (d.table[k].awaitingAck || (BecomingPaired(d) && d.holder.sid == k)))
    && (BecomingPaired(d') ==>
          || Commits(es, d'.table[d'.holder.sid])
          || (&& d'.holder == d.holder && BecomingPaired(d) && SamePeer(d.table[d.holder.sid], d'.table[d.holder.sid])
              && Acked(d.table[d.holder.sid].inviteId) !in es))
    && (d'.holder.Closing? && d'.holder.read.state == Paired ==>
          (exists u :: Refused(d'.holder.id, u) in es) || d'.holder == d.holder)
  }

  lemma CommittedExtends(log: seq<seq<Event>>, es: seq<Event>, s: Session, s': Session)
    requires CommittedBy(log, s) && SamePeer(s, s') && Acked(s.inviteId) !in es && Restarted !in es
    ensures CommittedBy(log + [es], s')
  {
    var c :| CommittedAt(log, s, c);
    assert CommittedAt(log + [es], s', c);
  }

  lemma LoggedStep(log: seq<seq<Event>>, d: Desk, d': Desk, es: seq<Event>)
    requires Logged(log, d) && LogStep(d, d', es)
    ensures Logged(log + [es], d')
  {
    forall k | 0 <= k < |d'.table| && d'.table[k].awaitingAck ensures CommittedBy(log + [es], d'.table[k]) {
      CommittedExtends(log, es, d.table[k], d'.table[k]);
    }
    if BecomingPaired(d') {
      var s' := d'.table[d'.holder.sid];
      if Commits(es, s') {
        assert CommittedAt(log + [es], s', |log|);
      } else {
        CommittedExtends(log, es, d.table[d.holder.sid], s');
      }
    }
    if d'.holder.Closing? && d'.holder.read.state == Paired {
      if u :| Refused(d'.holder.id, u) in es {
        assert RefusedAt(log + [es], d'.holder.id, u, |log|);
      } else {
        var u, k :| RefusedAt(log, d.holder.id, u, k);
        assert RefusedAt(log + [es], d'.holder.id, u, k);
      }
    }
  }

  lemma PublishLog(d: Desk, t: Trust, id: InviteId, cid: string, now: int)
    requires DeskSound(d)
    ensures LogStep(d, Publish(d, t, id, cid, now).0, Publish(d, t, id, cid, now).1)
  {
  }

  lemma RegisterLog(d: Desk, cid: string, id: InviteId, now: int)
    requires DeskSound(d)
    ensures LogStep(d, Register(d, cid, id, now), [])
  {
  }

  lemma PublishPinLog(d: Desk, id: InviteId, sid: nat, pin: string)
    requires DeskSound(d)
    ensures LogStep(d, PublishPin(d, id, sid, pin), [])
  {
  }

  lemma AbandonLog(d: Desk, id: InviteId, sid: nat, rejected: bool)
    requires DeskSound(d)
    ensures LogStep(d, Abandon(d, id, sid, rejected), [])
  {
  }

  lemma CheckLog(d: Desk, id: InviteId, sid: nat, parsed: Option<Peer>)
    requires DeskSound(d)
    ensures LogStep(d, Completed(d, id, sid, parsed), []) && LogStep(d, Cancel(d, id, sid), [])
  {
  }

  lemma CloseOpLog(d: Desk, gone: bool, now: int)
    requires DeskSound(d)
    ensures LogStep(d, Close(d, gone, now), [])
  {
  }

  lemma AckLog(d: Desk, id: InviteId, sid: nat, caller: Uuid)
    requires DeskSound(d)
    ensures LogStep(d, Ack(d, id, sid, caller).0, Ack(d, id, sid, caller).1)
  {
  }

  lemma ExpireLog(d: Desk, cutoff: int, busy: set<InviteId>)
    requires DeskSound(d)
    ensures LogStep(d, Expire(d, cutoff, busy), [])
  {
  }

  lemma CommitOpLog(d: Desk, t: Trust, memberOk: bool, pinOk: bool, clearOk: bool)
    requires DeskSound(d)
    ensures var (d', t', es) := Commit(d, t, memberOk, pinOk, clearOk); LogStep(d, d', es)
  {
  }

  lemma SignalOpLog(d: Desk, t: Trust, id: InviteId, sid: nat, to: InviteState, caller: Uuid, ok: bool)
    requires DeskSound(d)
    ensures var (d', t', es) := Signal(d, t, id, sid, to, caller, ok); LogStep(d, d', es)
  {
  }

  lemma StepLogged(m: Mgr, a: Action)
    requires DeskSound(m.d) && !a.DoRestart?
    ensures LogStep(m.d, Act(m, a).0.d, Act(m, a).1)
  {
    match a
    case DoPublish(id, cid, now) => PublishLog(m.d, m.t, id, cid, now);
    case DoRegister(id, now) => RegisterLog(m.d, m.t.clusterId, id, now);
    case DoPublishPin(id, sid, pin) => PublishPinLog(m.d, id, sid, pin);
    case DoAbandon(id, sid, rejected) => AbandonLog(m.d, id, sid, rejected);
    case DoCancel(id, sid) => CheckLog(m.d, id, sid, None);
    case DoComplete(id, sid, parsed) => CheckLog(m.d, id, sid, parsed);
    case DoClose(gone, now) => CloseOpLog(m.d, gone, now);
    case DoAck(id, sid, caller) => AckLog(m.d, id, sid, caller);
    case DoExpire(cutoff, busy) => ExpireLog(m.d, cutoff, busy);
    case DoCommit(x, y, z) => CommitOpLog(m.d, m.t, x, y, z);
    case DoSignal(id, sid, to, caller, ok) => SignalOpLog(m.d, m.t, id, sid, to, caller, ok);
    case _ => TrustOpsLog(m, a);
  }

  predicate TrustOp(a: Action) {
    a.DoJoin? || a.DoRestore? || a.DoTeardown? || a.DoPrepare? || a.DoDrop? || a.DoAdmit? || a.DoGossip? || a.DoDepart?
  }

  /** Regions that leave the table and the operation in inviteMu alone. */
  lemma TrustOpsLog(m: Mgr, a: Action)
    requires TrustOp(a)
    ensures LogStep(m.d, Act(m, a).0.d, Act(m, a).1)
  {
    TrustOpsQuiet(m, a);
    SameTableLog(m.d, Act(m, a).0.d, Act(m, a).1);
  }

  lemma TrustOpsQuiet(m: Mgr, a: Action)
    requires TrustOp(a)
    ensures Act(m, a).0.d.table == m.d.table && Act(m, a).0.d.holder == m.d.holder
    ensures forall e | e in Act(m, a).1 :: !e.Acked? && !e.Restarted?
  {
  }

  lemma SameTableLog(d: Desk, d': Desk, es: seq<Event>)
    requires d'.table == d.table && d'.holder == d.holder && forall e | e in es :: !e.Acked? && !e.Restarted?
    ensures LogStep(d, d', es)
  {
  }

  lemma {:induction false} EveryRunLogged(run: seq<Action>)
    ensures Logged(Exec(run).log, Exec(run).m.d)
  {
    if run != [] {
      var init, a := run[..|run| - 1], run[|run| - 1];
      EveryRunLogged(init);
      EveryDeskSound(init);
      var w := Exec(init);
      if !a.DoRestart? {
        StepLogged(w.m, a);
        LoggedStep(w.log, w.m.d, Act(w.m, a).0.d, Act(w.m, a).1);
      }
    }
  }

  lemma RefusalMeans(m: Mgr, a: Action, id: InviteId, uuid: Uuid)
    requires Refused(id, uuid) in Act(m, a).1
    ensures a.DoSignal? && Refuses(m.d, id, a.sid, a.to, uuid)
  {
  }

  /** A refusal comes from the peer committed for that invite, before its ack and in the same process. */
  lemma RefusalIsThePeers(run: seq<Action>, k: nat, id: InviteId, uuid: Uuid)
    requires k < |run| && Refused(id, uuid) in Exec(run).log[k]
    ensures exists c, epoch, cid | 0 <= c < k :: CommittedUnacked(Exec(run).log, k, c, id, uuid, epoch, cid)
  {
    LogAt(run, k);
    RefusalMeans(Exec(run[..k]).m, run[k], id, uuid);
    EveryRunLogged(run[..k]);
    CommitBehind(Exec(run).log, k, Exec(run[..k]).m.d, id, run[k].sid, run[k].to, uuid);
  }

  /** Committed in region c, with no ack of the invite and no restart up to region k. */
  predicate CommittedUnacked(log: seq<seq<Event>>, k: nat, c: nat, id: InviteId, uuid: Uuid, epoch: nat, cid: string)
    requires c < k <= |log|
  {
    Committed(id, uuid, epoch, cid) in log[c] && forall i | c < i < k :: Acked(id) !in log[i] && Restarted !in log[i]
  }

  lemma CommitBehind(log: seq<seq<Event>>, k: nat, d: Desk, id: InviteId, sid: nat, to: InviteState, uuid: Uuid)
    requires k <= |log| && Logged(log[..k], d) && Refuses(d, id, sid, to, uuid)
    ensures exists c, epoch, cid | 0 <= c < k :: CommittedUnacked(log, k, c, id, uuid, epoch, cid)
  {
    var s := d.table[sid];
    assert CommittedBy(log[..k], s);
    var c: nat :| CommittedAt(log[..k], s, c);
    assert log[..k][c] == log[c];
    forall i | c < i < k ensures Acked(id) !in log[i] && Restarted !in log[i] {
      assert log[..k][i] == log[i];
    }
    assert CommittedUnacked(log, k, c, id, uuid, s.peer.value.epoch, s.clusterId);
  }

  /** The record in a later state is the same, or failed after the peer's own refusal. */
  ghost predicate FailedByRefusal(log: seq<seq<Event>>, k: nat, id: InviteId, i: Invite, i': Invite)
    requires k <= |log|
  {
    i' == i.(state := Failed) && exists u, j | 0 <= j < k :: Refused(id, u) in log[j]
  }

  lemma RefusalBehind(log: seq<seq<Event>>, k: nat, d: Desk, d': Desk, id: InviteId)
    requires k <= |log| && Logged(log[..k], d) && OutcomeKept(d, d') && id in d.invites && d.invites[id].state == Paired
    ensures id in d'.invites
    ensures d'.invites[id] == d.invites[id] || FailedByRefusal(log, k, id, d.invites[id], d'.invites[id])
  {
    if d'.invites[id] != d.invites[id] {
      var u, j: nat :| RefusedAt(log[..k], d.holder.id, u, j);
      assert log[..k][j] == log[j];
    }
  }

  /**
   * A paired invite is left as it is by every region but one: the region that writes Failed
   * after the paired peer's own refusal, and it changes nothing else in the record.
   */
  lemma PairedChangesOnlyByRefusal(run: seq<Action>, k: nat, id: InviteId)
    requires k < |run| && Restarted !in Exec(run).log[k]
    requires id in Exec(run[..k]).m.d.invites && Exec(run[..k]).m.d.invites[id].state == Paired
    ensures id in Exec(run[..k + 1]).m.d.invites
    ensures var i, i' := Exec(run[..k]).m.d.invites[id], Exec(run[..k + 1]).m.d.invites[id];
            i' == i || FailedByRefusal(Exec(run).log, k, id, i, i')
  {
    OutcomeAt(run, k);
    EveryRunLogged(run[..k]);
    LogPrefix(run, k);
    RefusalBehind(Exec(run).log, k, Exec(run[..k]).m.d, Exec(run[..k + 1]).m.d, id);
  }
}
