/**
 * What each region demands and does, for every state it can meet: how an invite is
 * opened, answered and ended, when a commit goes through, what a refusal takes back,
 * and when a removal or a gossiped record changes trust.
 */
module ClusterRules {
  import opened Options
  import opened Cluster
  import opened ClusterRuns
  import opened ClusterPairing

  /** inviteMu is free, and session sid of this invite is at hand. */
  predicate AtHand(d: Desk, id: InviteId, sid: nat) {
    d.holder == Idle && sid < |d.table| && d.table[sid].inviteId == id
  }

  predicate InState(d: Desk, id: InviteId, s: InviteState) {
    id in d.invites && d.invites[id].state == s
  }

  /** Only this invite's record and session differ. */
  ghost predicate OnlyAbout(d: Desk, d': Desk, id: InviteId) {
    && d'.gen == d.gen && d'.walks == d.walks && d'.used == d.used && |d'.table| == |d.table|
    && (forall i | i != id :: (i in d'.invites <==> i in d.invites) && (i in d'.sessions <==> i in d.sessions))
    && (forall i | i != id && i in d.invites && i in d'.invites :: d'.invites[i] == d.invites[i])
    && (forall i | i != id && i in d.sessions && i in d'.sessions :: d'.sessions[i] == d.sessions[i])
  }

  // ---- Opening ----

  /** An invite is published for the active admission only, under a new id, pending and without a PIN. */
  lemma PublishMeans(m: Mgr, id: InviteId, cid: string, now: int)
    ensures var (m', es) := Act(m, DoPublish(id, cid, now));
            if m.d.holder == Idle && id !in m.d.used && cid != "" && m.t.clusterId == cid
               && m.t.admission.0 == cid && m.t.admission.1 != 0
            then es == [Published(id, cid)] && m'.t == m.t && id in m'.d.used
                 && id in m'.d.invites && m'.d.invites[id] == Invite(Pending, None, now)
                 && id in m'.d.walks && m'.d.walks[id].clusterId == cid && m'.d.walks[id].gen == m.d.gen
                 && m'.d.sessions == m.d.sessions && m'.d.table == m.d.table
                 && forall i | i != id :: (i in m'.d.invites <==> i in m.d.invites)
            else m' == m && es == []
  {
  }

  /** A session is installed for a pending invite whose cluster and generation are still the current ones. */
  lemma RegisterMeans(m: Mgr, id: InviteId, now: int)
    ensures var (m', es) := Act(m, DoRegister(id, now));
            if m.d.holder == Idle && InState(m.d, id, Pending) && id in m.d.walks && m.t.clusterId != ""
               && m.t.clusterId == m.d.walks[id].clusterId && m.d.gen == m.d.walks[id].gen
            then && m'.t == m.t && m'.d.invites == m.d.invites && id in m'.d.sessions
                 && m'.d.sessions[id] == |m.d.table| && |m'.d.table| == |m.d.table| + 1
                 && m'.d.table[|m.d.table|] == Session(id, m.t.clusterId, m.d.gen, None, false, now)
                 && m'.d.table[..|m.d.table|] == m.d.table
            else m' == m && es == []
  {
  }

  /** The PIN is stamped on a pending invite through its live session; a stale session stamps nothing. */
  lemma PinMeans(m: Mgr, id: InviteId, sid: nat, pin: string)
    ensures var m' := Act(m, DoPublishPin(id, sid, pin)).0;
            var live := AtHand(m.d, id, sid) && id in m.d.sessions && m.d.sessions[id] == sid;
            && m'.t == m.t
            && (!live ==> m' == m)
            && (live && InState(m.d, id, Pending) ==>
                  && OnlyAbout(m.d, m'.d, id) && m'.d.sessions == m.d.sessions
                  && id in m'.d.invites && m'.d.invites[id] == m.d.invites[id].(pin := Some(pin)))
            && (live && !InState(m.d, id, Pending) ==>
                  id !in m'.d.sessions && m'.d.invites == m.d.invites && OnlyAbout(m.d, m'.d, id))
  {
  }

  // ---- Ending ----

  /** How a region ends a pending invite, if it does. */
  function EndsAs(a: Action): Option<InviteState> {
    match a
    case DoCancel(_, _) => Some(Canceled)
    case DoSignal(_, _, to, _, _) => if to == Declined || to == Failed || to == Expired then Some(to) else None
    case DoComplete(_, _, parsed) => if parsed.None? || parsed.value.epoch == 0 then Some(Failed) else None
    case _ => None
  }

  predicate About(a: Action, id: InviteId, sid: nat) {
    (a.DoCancel? || a.DoSignal? || a.DoComplete?) && a.id == id && a.sid == sid
  }

  /**
   * A pending invite ends by cancel, by the joiner's decline, failure or expiry, or by a completion
   * without a usable peer: its record keeps everything but the state, its session is gone, and trust and
   * every other invite are as before.
   */
  lemma PendingEnds(m: Mgr, a: Action, id: InviteId, sid: nat, now: int)
    requires AtHand(m.d, id, sid) && InState(m.d, id, Pending) && About(a, id, sid) && EndsAs(a).Some?
    ensures var m' := After(m, [a] + [DoClose(false, now)]);
            && m'.t == m.t && m'.d.holder == Idle && OnlyAbout(m.d, m'.d, id) && id !in m'.d.sessions
            && id in m'.d.invites && m'.d.invites[id] == m.d.invites[id].(state := EndsAs(a).value)
  {
    AfterCons(m, a, [DoClose(false, now)]);
    var m1 := Act(m, a).0;
    AfterCons(m1, DoClose(false, now), []);
    assert [DoClose(false, now)] + [] == [DoClose(false, now)];
    EndingRegion(m, a, id, sid);
    Closes(m1.d, m1.t, now);
  }

  lemma EndingRegion(m: Mgr, a: Action, id: InviteId, sid: nat)
    requires AtHand(m.d, id, sid) && InState(m.d, id, Pending) && About(a, id, sid) && EndsAs(a).Some?
    ensures Act(m, a) == (m.(d := m.d.(holder := Closing(id, sid, m.d.invites[id], EndsAs(a).value))), [])
  {
  }

  /** Once it is no longer pending, none of these does anything, except the paired peer's own refusal. */
  lemma EndedIsIgnored(m: Mgr, a: Action, id: InviteId, sid: nat)
    requires About(a, id, sid) && !InState(m.d, id, Pending)
    requires a.DoSignal? ==> !Refuses(m.d, id, sid, a.to, a.caller)
    ensures Act(m, a) == (m, [])
  {
  }

  /** An exchange given up in its live session: the session goes, and a pending invite is failed or rejected. */
  lemma AbandonMeans(m: Mgr, id: InviteId, sid: nat, rejected: bool)
    ensures var m' := Act(m, DoAbandon(id, sid, rejected)).0;
            && m'.t == m.t && OnlyAbout(m.d, m'.d, id)
            && if AtHand(m.d, id, sid) && id in m.d.sessions && m.d.sessions[id] == sid
               then id !in m'.d.sessions
                    && (id in m'.d.invites <==> id in m.d.invites)
                    && if InState(m.d, id, Pending)
                       then id in m'.d.invites
                            && m'.d.invites[id] == m.d.invites[id].(state := if rejected then Rejected else Failed)
                       else m'.d.invites == m.d.invites
               else m' == m
  {
  }

  /** A completion is taken further exactly for a pending invite and a peer with an epoch. */
  lemma CompletionMeans(m: Mgr, id: InviteId, sid: nat, p: Peer)
    ensures var (m', es) := Act(m, DoComplete(id, sid, Some(p)));
            && es == []
            && (if AtHand(m.d, id, sid) && InState(m.d, id, Pending) && p.epoch != 0
                then m' == m.(d := m.d.(holder := Checked(id, sid, m.d.invites[id], p)))
                else m' == m || (m'.d.holder.Closing? && m'.d.holder.to == Failed))
  {
  }

  // ---- The commit ----

  /** The session is the live one of the invite, of the active cluster, and no teardown is unfinished. */
  predicate SessionMayCommit(m: Mgr)
    requires m.d.holder.Checked?
  {
    var id, sid := m.d.holder.id, m.d.holder.sid;
    && sid < |m.d.table| && m.d.table[sid].inviteId == id && id in m.d.sessions && m.d.sessions[id] == sid
    && !m.t.teardownPending && m.t.clusterId != "" && m.t.clusterId == m.d.table[sid].clusterId
  }

  /** The writes the commit cannot do without succeed: the roster, and the pin file if one is written. */
  predicate WritesGo(t: Trust, p: Peer, memberOk: bool, pinOk: bool) {
    memberOk && (pinOk || (p.uuid in t.pins && t.pins[p.uuid].epoch > p.epoch))
  }

  predicate Pairs(m: Mgr, memberOk: bool, pinOk: bool)
    requires m.d.holder.Checked?
  {
    SessionMayCommit(m) && Welcome(m.t, m.d.holder.peer, m.t.clusterId)
      && WritesGo(m.t, m.d.holder.peer, memberOk, pinOk)
  }

  /** The member row is the first write of the commit; without the others it is taken back. */
  predicate RowWritten(m: Mgr)
    requires m.d.holder.Checked?
  {
    SessionMayCommit(m) && NotRemoved(m.t, m.d.holder.peer, m.t.clusterId)
  }

  /** Trust after a commit that pairs; clearing the superseded proof is the one write it can do without. */
  function TrustPaired(t: Trust, p: Peer, clearOk: bool): Trust {
    var full := TrustAfter(t, p, t.clusterId);
    if clearOk then full else full.(proofs := t.proofs, diskProofs := t.diskProofs)
  }

  /**
   * The commit pairs exactly when the session may commit, the peer is welcome and the writes go; then
   * trust grows by this admission and the session learns its peer. Otherwise the invite is about to be
   * failed and no trust is gained; only a member row, written first, is taken back.
   */
  lemma CommitMeans(m: Mgr, memberOk: bool, pinOk: bool, clearOk: bool)
    requires m.d.holder.Checked? && m.d.holder.peer.epoch != 0
    ensures var (m', es) := Act(m, DoCommit(memberOk, pinOk, clearOk));
            var h := m.d.holder;
            if Pairs(m, memberOk, pinOk) then
              && m'.t == TrustPaired(m.t, h.peer, clearOk)
              && m'.d == m.d.(holder := Closing(h.id, h.sid, h.read, Paired),
                              table := m.d.table[h.sid := m.d.table[h.sid].(peer := Some(h.peer))])
            else
              && m'.d == m.d.(holder := Closing(h.id, h.sid, h.read, Failed))
              && m'.t == (if RowWritten(m) then m.t.(members := m.t.members - {h.peer.uuid}) else m.t)
              && forall e | e in es :: e.Wrote?
  {
    var h := m.d.holder;
    if Pairs(m, memberOk, pinOk) {
      EnrollsAll(m.t, h.peer, clearOk, memberOk, pinOk);
      CommitPairs(m.d, m.t, memberOk, pinOk, clearOk);
    } else {
      CommitFails(m.d, m.t, memberOk, pinOk, clearOk);
    }
    CommitRegion(m, memberOk, pinOk, clearOk);
  }

  lemma CommitRegion(m: Mgr, memberOk: bool, pinOk: bool, clearOk: bool)
    ensures Act(m, DoCommit(memberOk, pinOk, clearOk))
            == var (d', t', es) := Commit(m.d, m.t, memberOk, pinOk, clearOk); (Mgr(d', t'), es)
  {
  }

  lemma CommitPairs(d: Desk, t: Trust, memberOk: bool, pinOk: bool, clearOk: bool)
    requires d.holder.Checked? && Pairs(Mgr(d, t), memberOk, pinOk)
    requires Enroll(t, d.holder.peer, memberOk, pinOk, clearOk) == (TrustPaired(t, d.holder.peer, clearOk), true)
    ensures var (d', t', es) := Commit(d, t, memberOk, pinOk, clearOk);
            var h := d.holder;
            && t' == TrustPaired(t, h.peer, clearOk)
            && d' == d.(holder := Closing(h.id, h.sid, h.read, Paired),
                        table := d.table[h.sid := d.table[h.sid].(peer := Some(h.peer))])
  {
  }

  lemma CommitFails(d: Desk, t: Trust, memberOk: bool, pinOk: bool, clearOk: bool)
    requires d.holder.Checked? && d.holder.peer.epoch != 0 && !Pairs(Mgr(d, t), memberOk, pinOk)
    ensures var (d', t', es) := Commit(d, t, memberOk, pinOk, clearOk);
            var h := d.holder;
            && d' == d.(holder := Closing(h.id, h.sid, h.read, Failed))
            && t' == (if RowWritten(Mgr(d, t)) then t.(members := t.members - {h.peer.uuid}) else t)
            && forall e | e in es :: e.Wrote?
  {
    Merged(t.pins, d.holder.peer, t.clusterId, pinOk);
  }

  /** Pinning changes that node's pin and no other. */
  lemma Merged(pins: map<Uuid, Pin>, p: Peer, cid: string, ok: bool)
    ensures var r := PinPeer(pins, p.uuid, Pin(cid, p.epoch, p.cert), ok);
            r.Some? ==> r.value == pins[p.uuid := r.value[p.uuid]]
  {
    if p.uuid in pins { assert pins[p.uuid := pins[p.uuid]] == pins; }
  }

  lemma EnrollsAll(t: Trust, p: Peer, clearOk: bool, memberOk: bool, pinOk: bool)
    requires Welcome(t, p, t.clusterId) && WritesGo(t, p, memberOk, pinOk)
    ensures var (t', ok) := Enroll(t, p, memberOk, pinOk, clearOk);
            ok && t' == TrustPaired(t, p, clearOk)
  {
    Merged(t.pins, p, t.clusterId, pinOk);
    if p.uuid in t.pins && t.pins[p.uuid].epoch >= p.epoch { assert t.pins[p.uuid := t.pins[p.uuid]] == t.pins; }
  }

  // ---- Closing ----

  /** The last write: the record read, in its new state; a paired one waits for its ack, another loses its session. */
  lemma CloseMeans(m: Mgr, now: int)
    requires m.d.holder.Closing? && m.d.holder.sid < |m.d.table|
    ensures var m' := Act(m, DoClose(false, now)).0;
            var h := m.d.holder;
            && m'.t == m.t && m'.d.holder == Idle && OnlyAbout(m.d, m'.d, h.id)
            && h.id in m'.d.invites && m'.d.invites[h.id] == h.read.(state := h.to)
            && (forall k | 0 <= k < |m.d.table| && k != h.sid :: m'.d.table[k] == m.d.table[k])
            && (if h.to == Paired
                then m'.d.sessions == m.d.sessions
                     && m'.d.table[h.sid] == m.d.table[h.sid].(awaitingAck := true, created := now)
                else h.id !in m'.d.sessions && m'.d.table == m.d.table)
  {
  }

  /** A record deleted by a teardown in between is not written again. */
  lemma CloseAfterTeardown(m: Mgr, now: int)
    requires m.d.holder.Closing? && m.d.holder.id !in m.d.invites
    ensures Act(m, DoClose(true, now)).0.d.invites == m.d.invites && Act(m, DoClose(true, now)).0.d.holder == Idle
  {
  }

  // ---- Refusal ----

  /** Member row and pin are still the ones this session committed. */
  predicate StillCommitted(t: Trust, s: Session)
    requires s.peer.Some?
  {
    var p := s.peer.value;
    && p.uuid in t.members && t.members[p.uuid].clusterId == s.clusterId && t.members[p.uuid].epoch == p.epoch
    && p.uuid in t.pins && t.pins[p.uuid].clusterId == s.clusterId && t.pins[p.uuid].epoch == p.epoch
  }

  /** The committed peer of a paired invite reports a failure while its ack is awaited. */
  predicate MayRefuse(d: Desk, id: InviteId, sid: nat, caller: Uuid) {
    && AtHand(d, id, sid) && InState(d, id, Paired) && d.table[sid].awaitingAck && d.table[sid].peer.Some?
    && caller != "" && caller == d.table[sid].peer.value.uuid
  }

  /**
   * A paired peer's refusal fails the invite and takes back exactly what its session committed: the member
   * and the pin, if they are still those; an admission that has replaced them stays. Nobody else's does.
   */
  lemma RefusalMeans(m: Mgr, id: InviteId, sid: nat, caller: Uuid, ok: bool)
    requires InState(m.d, id, Paired)
    ensures var (m', es) := Act(m, DoSignal(id, sid, Failed, caller, ok));
            if MayRefuse(m.d, id, sid, caller) then
              && m'.d == m.d.(holder := Closing(id, sid, m.d.invites[id], Failed)) && es == [Refused(id, caller)]
              && (!StillCommitted(m.t, m.d.table[sid]) ==> m'.t == m.t)
              && (StillCommitted(m.t, m.d.table[sid]) ==>
                    m'.t == m.t.(members := m.t.members - {caller}, pins := m.t.pins - {caller},
                                 diskPins := if ok then m.t.diskPins - {caller} else m.t.diskPins))
            else m' == m && es == []
  {
  }

  // ---- Removal and gossip ----

  /** A member of the active, admitted cluster whose row and pin name one admission. */
  predicate IsMember(t: Trust, u: Uuid) {
    && t.admission.0 != "" && t.admission.1 != 0 && t.clusterId == t.admission.0
    && u in t.members && t.members[u].clusterId == t.clusterId && t.members[u].epoch != 0
    && u in t.pins && t.pins[u].clusterId == t.clusterId && t.pins[u].epoch == t.members[u].epoch
  }

  /** A removal is prepared for such a member only, and remembers its epoch and this node's admission. */
  lemma PrepareMeans(m: Mgr, op: nat, u: Uuid, tombstone: int, endorsements: seq<string>, ok: bool)
    ensures var (m', es) := Act(m, DoPrepare(op, u, tombstone, endorsements, ok));
            && m'.d == m.d && m'.t.pins == m.t.pins && m'.t.members == m.t.members
            && (m' != m ==> op !in m.t.removals && IsMember(m.t, u))
            && (op !in m.t.removals && IsMember(m.t, u) && u != "" && ok ==>
                  && op in m'.t.removals
                  && m'.t.removals[op] == Removal(u, m.t.members[u].epoch, m.t.clusterId, m.t.admission.1)
                  && u in m'.t.proofs && m'.t.proofs[u].epoch >= m.t.members[u].epoch && m'.t.diskProofs == m'.t.proofs)
  {
  }

  /** The node's pin and row are gone, and nothing else is touched. */
  predicate TrustLost(t: Trust, t': Trust, u: Uuid) {
    t'.pins == t.pins - {u} && t'.diskPins == t.diskPins - {u} && t'.members == t.members - {u}
  }

  predicate TrustKept(t: Trust, t': Trust) {
    t'.pins == t.pins && t'.diskPins == t.diskPins && t'.members == t.members
  }

  lemma DropOnTrust(t: Trust, op: nat, ok: bool, r: Removal)
    requires op in t.removals && t.removals[op] == r
    ensures var t' := Drop(t, op, ok).0;
            && op !in t'.removals && t'.proofs == t.proofs
            && if IsMember(t, r.uuid) && t.members[r.uuid].epoch == r.epoch
                  && t.admission == (r.clusterId, r.selfEpoch) && ok
               then TrustLost(t, t', r.uuid) else TrustKept(t, t')
  {
  }

  /**
   * The second region drops pin and member exactly if the node is still the member the first one saw, under
   * this node's unchanged admission, and the pin file can be deleted; whatever happens the removal is over.
   */
  lemma DropMeans(m: Mgr, op: nat, ok: bool)
    ensures var (m', es) := Act(m, DoDrop(op, ok));
            if op !in m.t.removals then m' == m && es == []
            else
              var r := m.t.removals[op];
              && m'.d == m.d && op !in m'.t.removals && m'.t.proofs == m.t.proofs
              && if IsMember(m.t, r.uuid) && m.t.members[r.uuid].epoch == r.epoch
                    && m.t.admission == (r.clusterId, r.selfEpoch) && ok
                 then TrustLost(m.t, m'.t, r.uuid) else TrustKept(m.t, m'.t)
  {
    if op in m.t.removals { DropOnTrust(m.t, op, ok, m.t.removals[op]); }
  }

  /**
   * A roster entry is admitted only into an active cluster, with an epoch newer than the pinned one and
   * not removed.
   */
  lemma AdmitMeans(m: Mgr, u: Uuid, epoch: nat, cert: string, memberOk: bool, pinOk: bool, clearOk: bool)
    ensures var (m', es) := Act(m, DoAdmit(u, epoch, cert, memberOk, pinOk, clearOk));
            && m'.d == m.d
            && (m' != m ==>
                  && !m.t.teardownPending && m.t.clusterId != "" && Welcome(m.t, Peer(u, epoch, cert), m.t.clusterId)
                  && (u in m.t.pins ==> epoch > m.t.pins[u].epoch)
                  && m'.t == TrustPaired(m.t, Peer(u, epoch, cert), clearOk))
            && (!m.t.teardownPending && m.t.clusterId != "" && Welcome(m.t, Peer(u, epoch, cert), m.t.clusterId)
                && (u in m.t.pins ==> epoch > m.t.pins[u].epoch) && memberOk && pinOk ==>
                  m'.t == TrustPaired(m.t, Peer(u, epoch, cert), clearOk))
  {
    var p := Peer(u, epoch, cert);
    Merged(m.t.pins, p, m.t.clusterId, pinOk);
    if Welcome(m.t, p, m.t.clusterId) && WritesGo(m.t, p, memberOk, pinOk) {
      EnrollsAll(m.t, p, clearOk, memberOk, pinOk);
    }
  }

  /** The proof is for an admission to the active cluster, and no teardown is unfinished. */
  predicate Applies(t: Trust, u: Uuid, p: Proof) {
    !t.teardownPending && t.clusterId != "" && p.clusterId == t.clusterId && u != "" && p.epoch != 0
  }

  /** The node's pin and row, as far as there are any, are of this epoch. */
  predicate AtEpoch(t: Trust, u: Uuid, epoch: nat) {
    (u in t.pins ==> t.pins[u].epoch == epoch) && (u in t.members ==> t.members[u].epoch == epoch)
  }

  /**
   * A removal applied takes away at most this node's pin and row, and only those of the removed epoch.
   * While the pin cannot be deleted, row and pin stay.
   */
  predicate TakesOnly(t: Trust, t': Trust, u: Uuid, epoch: nat, removeOk: bool) {
    || TrustKept(t, t')
    || (AtEpoch(t, u, epoch) && if u in t.pins then removeOk && TrustLost(t, t', u)
                                else t'.pins == t.pins && t'.diskPins == t.diskPins && t'.members == t.members - {u})
  }

  /** A proof not backed by the pin of that epoch is not stored. */
  predicate StoresBacked(t: Trust, t': Trust, u: Uuid, epoch: nat) {
    u !in t.pins || t.pins[u].epoch != epoch ==> t'.proofs == t.proofs || t'.proofs == t.proofs - {u}
  }

  lemma EnforceTakesOnly(t: Trust, u: Uuid, epoch: nat, clearOk: bool, removeOk: bool)
    ensures TakesOnly(t, Enforce(t, u, epoch, clearOk, removeOk), u, epoch, removeOk)
  {
  }

  /** A pinned member of that epoch, with no later proof held, goes, and the proof is held from then on. */
  predicate TakesMember(t: Trust, t': Trust, u: Uuid, epoch: nat) {
    u in t.pins && AtEpoch(t, u, epoch) && (u in t.proofs ==> t.proofs[u].epoch <= epoch) ==>
      TrustLost(t, t', u) && u in t'.proofs && t'.proofs[u].epoch == epoch
  }

  lemma GossipTakesOnly(t: Trust, u: Uuid, p: Proof, putOk: bool, clearOk: bool, removeOk: bool)
    ensures TakesOnly(t, Gossip(t, u, p, putOk, clearOk, removeOk), u, p.epoch, removeOk)
  {
    var put := PutProof(t.proofs, u, p, u in t.pins && t.pins[u].epoch == p.epoch, putOk);
    if put.Some? {
      EnforceTakesOnly(t.(proofs := put.value, diskProofs := put.value), u, p.epoch, clearOk, removeOk);
    }
  }

  lemma GossipStoresBacked(t: Trust, u: Uuid, p: Proof, putOk: bool, clearOk: bool, removeOk: bool)
    ensures StoresBacked(t, Gossip(t, u, p, putOk, clearOk, removeOk), u, p.epoch)
  {
  }

  lemma GossipTakesMember(t: Trust, u: Uuid, p: Proof, clearOk: bool)
    requires Applies(t, u, p)
    ensures TakesMember(t, Gossip(t, u, p, true, clearOk, true), u, p.epoch)
  {
  }

  lemma GossipApplies(t: Trust, u: Uuid, p: Proof, putOk: bool, clearOk: bool, removeOk: bool)
    ensures Gossip(t, u, p, putOk, clearOk, removeOk) != t ==> Applies(t, u, p)
  {
  }

  /**
   * A gossiped removal counts only for the active cluster and while no teardown is unfinished; what it
   * takes, and that it takes a member it names if the writes succeed.
   */
  lemma GossipMeans(m: Mgr, u: Uuid, p: Proof, putOk: bool, clearOk: bool, removeOk: bool)
    ensures var (m', es) := Act(m, DoGossip(u, p, putOk, clearOk, removeOk));
            && m'.d == m.d && es == [] && (m' != m ==> Applies(m.t, u, p))
            && TakesOnly(m.t, m'.t, u, p.epoch, removeOk) && StoresBacked(m.t, m'.t, u, p.epoch)
            && (Applies(m.t, u, p) && putOk && removeOk ==> TakesMember(m.t, m'.t, u, p.epoch))
  {
    GossipApplies(m.t, u, p, putOk, clearOk, removeOk);
    GossipTakesOnly(m.t, u, p, putOk, clearOk, removeOk);
    GossipStoresBacked(m.t, u, p, putOk, clearOk, removeOk);
    if Applies(m.t, u, p) { GossipTakesMember(m.t, u, p, clearOk); }
  }

  /** A removal that a newer pinned admission supersedes is forgotten. */
  lemma SupersededProofGoes(m: Mgr, u: Uuid, p: Proof, putOk: bool, removeOk: bool)
    requires Applies(m.t, u, p) && u in m.t.pins && m.t.pins[u].epoch > p.epoch
    requires u in m.t.proofs && m.t.proofs[u] == p.(endorsements := m.t.proofs[u].endorsements) && p.endorsements == []
    ensures var m' := Act(m, DoGossip(u, p, putOk, true, removeOk)).0;
            u !in m'.t.proofs && m'.t.pins == m.t.pins && m'.t.members == m.t.members
  {
  }
}
