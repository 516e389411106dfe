/**
 * A pairing that nothing interferes with goes through: from any state of an active
 * cluster, one invite taken through its seven regions ends paired and acknowledged,
 * with the peer's admission trusted on disk. The exact condition is on the peer: no
 * removal proof of this cluster at or above its epoch, and no other certificate pinned.
 */
module ClusterPairing {
  import opened Options
  import opened Cluster
  import opened ClusterRuns

  /** The state after a list of regions. */
  function After(m: Mgr, acts: seq<Action>): Mgr
    decreases |acts|
  {
    if acts == [] then m else After(Act(m, acts[0]).0, acts[1..])
  }

  lemma AfterCons(m: Mgr, a: Action, rest: seq<Action>)
    ensures After(m, [a] + rest) == After(Act(m, a).0, rest)
  {
    assert ([a] + rest)[1..] == rest;
  }

  lemma AfterThree(m: Mgr, a: Action, b: Action, c: Action, rest: seq<Action>)
    ensures After(m, [a, b, c] + rest) == After(Act(Act(Act(m, a).0, b).0, c).0, rest)
  {
    assert [a, b, c] + rest == [a] + ([b] + ([c] + rest));
    AfterCons(m, a, [b] + ([c] + rest));
    AfterCons(Act(m, a).0, b, [c] + rest);
    AfterCons(Act(Act(m, a).0, b).0, c, rest);
  }

  /** The node runs an active cluster, and nothing is under way in inviteMu. */
  predicate Active(m: Mgr, cid: string) {
    m.d.holder == Idle && cid != "" && m.t.clusterId == cid && m.t.admission.0 == cid && m.t.admission.1 != 0
    && !m.t.teardownPending
  }

  /** No proof is held that the peer was removed from this cluster at this epoch or a later one. */
  predicate NotRemoved(t: Trust, p: Peer, cid: string) {
    p.uuid in t.proofs ==> t.proofs[p.uuid].clusterId != cid || t.proofs[p.uuid].epoch < p.epoch
  }

  /** The peer may be admitted: not removed, and known by no other certificate. */
  predicate Welcome(t: Trust, p: Peer, cid: string) {
    && p.epoch != 0 && NotRemoved(t, p, cid)
    && (p.uuid in t.pins ==> t.pins[p.uuid].cert == p.cert)
  }

  /** The admission pinned afterwards: this one, unless a later one of the same node is already. */
  function PinAfter(t: Trust, p: Peer, cid: string): Pin {
    if p.uuid in t.pins && t.pins[p.uuid].epoch >= p.epoch then t.pins[p.uuid] else Pin(cid, p.epoch, p.cert)
  }

  /** Trust afterwards: the member, its pin in memory and on disk, and no proof it supersedes. */
  function TrustAfter(t: Trust, p: Peer, cid: string): Trust {
    var superseded := p.uuid in t.proofs && t.proofs[p.uuid].epoch < p.epoch;
    t.(members := t.members[p.uuid := Member(cid, p.epoch)],
       pins := t.pins[p.uuid := PinAfter(t, p, cid)],
       diskPins := if p.uuid in t.pins && t.pins[p.uuid].epoch >= p.epoch then t.diskPins
                   else t.diskPins[p.uuid := Pin(cid, p.epoch, p.cert)],
       proofs := if superseded then t.proofs - {p.uuid} else t.proofs,
       diskProofs := if p.uuid in t.diskProofs && t.diskProofs[p.uuid].epoch < p.epoch then t.diskProofs - {p.uuid}
                     else t.diskProofs)
  }

  // ---- Up to the commit ----

  /** The desk of an invite whose peer has completed the exchange. */
  function OpenDesk(d: Desk, id: InviteId, cid: string, now: int, pin: string, p: Peer): Desk {
    var i := Invite(Pending, Some(pin), now);
    d.(table := d.table + [Session(id, cid, d.gen, None, false, now)], sessions := d.sessions[id := |d.table|],
       invites := d.invites[id := i], walks := d.walks[id := Walk(cid, d.gen)], used := d.used + {id},
       holder := Checked(id, |d.table|, i, p))
  }

  lemma InviteSteps(d: Desk, t: Trust, id: InviteId, cid: string, now: int)
    requires Active(Mgr(d, t), cid) && id !in d.used
    ensures var d1 := Publish(d, t, id, cid, now).0;
            Register(d1, t.clusterId, id, now) ==
                 d.(table := d.table + [Session(id, cid, d.gen, None, false, now)],
                    sessions := d.sessions[id := |d.table|], invites := d.invites[id := Invite(Pending, None, now)],
                    walks := d.walks[id := Walk(cid, d.gen)], used := d.used + {id})
  {
  }

  lemma AnswerSteps(d: Desk, d2: Desk, id: InviteId, cid: string, now: int, pin: string, p: Peer)
    requires d.holder == Idle && p.epoch != 0
    requires d2 == d.(table := d.table + [Session(id, cid, d.gen, None, false, now)],
                      sessions := d.sessions[id := |d.table|], invites := d.invites[id := Invite(Pending, None, now)],
                      walks := d.walks[id := Walk(cid, d.gen)], used := d.used + {id})
    ensures Completed(PublishPin(d2, id, |d.table|, pin), id, |d.table|, Some(p)) == OpenDesk(d, id, cid, now, pin, p)
  {
    var d3 := PublishPin(d2, id, |d.table|, pin);
    assert d3.invites == d.invites[id := Invite(Pending, Some(pin), now)];
    assert d3.invites[id] == Invite(Pending, Some(pin), now);
  }

  // ---- The regions as actions ----

  lemma Opens(d: Desk, t: Trust, id: InviteId, cid: string, now: int)
    ensures Act(Mgr(d, t), DoPublish(id, cid, now)).0 == Mgr(Publish(d, t, id, cid, now).0, t)
  {
  }

  lemma Registers(d: Desk, t: Trust, id: InviteId, now: int)
    ensures Act(Mgr(d, t), DoRegister(id, now)).0 == Mgr(Register(d, t.clusterId, id, now), t)
  {
  }

  lemma Stamps(d: Desk, t: Trust, id: InviteId, sid: nat, pin: string)
    ensures Act(Mgr(d, t), DoPublishPin(id, sid, pin)).0 == Mgr(PublishPin(d, id, sid, pin), t)
  {
  }

  lemma Completes(d: Desk, t: Trust, id: InviteId, sid: nat, parsed: Option<Peer>)
    ensures Act(Mgr(d, t), DoComplete(id, sid, parsed)).0 == Mgr(Completed(d, id, sid, parsed), t)
  {
  }

  lemma Commits(d: Desk, t: Trust)
    ensures Act(Mgr(d, t), DoCommit(true, true, true)).0
            == Mgr(Commit(d, t, true, true, true).0, Commit(d, t, true, true, true).1)
  {
  }

  lemma Closes(d: Desk, t: Trust, now: int)
    ensures Act(Mgr(d, t), DoClose(false, now)).0 == Mgr(Close(d, false, now), t)
  {
  }

  lemma Acks(d: Desk, t: Trust, id: InviteId, sid: nat, caller: Uuid)
    ensures Act(Mgr(d, t), DoAck(id, sid, caller)).0 == Mgr(Ack(d, id, sid, caller).0, t)
  {
  }

  // ---- The commit ----

  lemma GatesOpen(d: Desk, t: Trust, id: InviteId, cid: string, now: int, pin: string, p: Peer)
    requires t.clusterId == cid != "" && !t.teardownPending && Welcome(t, p, cid)
    ensures MayCommit(OpenDesk(d, id, cid, now, pin, p), t)
    ensures Enroll(t, p, true, true, true) == (TrustAfter(t, p, cid), true)
  {
    var pinned := PinPeer(t.pins, p.uuid, Pin(cid, p.epoch, p.cert), true).value;
    assert pinned == t.pins[p.uuid := PinAfter(t, p, cid)];
    if p.uuid in t.pins && t.pins[p.uuid].epoch >= p.epoch { assert t.pins[p.uuid := t.pins[p.uuid]] == t.pins; }
  }

  function PairedDesk(d: Desk, id: InviteId, cid: string, now: int, pin: string, p: Peer, closed: int): Desk {
    var i := Invite(Paired, Some(pin), now);
    d.(table := d.table + [Session(id, cid, d.gen, Some(p), false, closed)], sessions := d.sessions - {id},
       invites := d.invites[id := i], walks := d.walks[id := Walk(cid, d.gen)], used := d.used + {id})
  }

  lemma CloseAndAck(d0: Desk, d1: Desk, id: InviteId, cid: string, now: int, pin: string, p: Peer, closed: int)
    requires d0.holder == Idle
    requires var open := OpenDesk(d0, id, cid, now, pin, p);
             var sid := |d0.table|;
             d1 == open.(holder := Closing(id, sid, open.holder.read, Paired),
                         table := open.table[sid := open.table[sid].(peer := Some(p))])
    ensures Ack(Close(d1, false, closed), id, |d0.table|, p.uuid).0 == PairedDesk(d0, id, cid, now, pin, p, closed)
  {
    var d2, sid := Close(d1, false, closed), |d0.table|;
    var d3, end := Ack(d2, id, sid, p.uuid).0, PairedDesk(d0, id, cid, now, pin, p, closed);
    assert d2.table[sid] == Session(id, cid, d0.gen, Some(p), true, closed);
    assert d2.invites[id] == Invite(Paired, Some(pin), now);
    assert d3.table == end.table && d3.invites == end.invites && d3.sessions == end.sessions;
  }

  lemma CommitGoesThrough(d: Desk, t: Trust, p: Peer, cid: string, id: InviteId)
    requires d.holder.Checked? && d.holder.id == id && d.holder.peer == p && t.clusterId == cid && MayCommit(d, t)
    requires Enroll(t, p, true, true, true) == (TrustAfter(t, p, cid), true)
    ensures var (d', t', es) := Commit(d, t, true, true, true);
            && t' == TrustAfter(t, p, cid) && Committed(id, p.uuid, p.epoch, cid) in es
            && d' == d.(holder := Closing(id, d.holder.sid, d.holder.read, Paired),
                        table := d.table[d.holder.sid := d.table[d.holder.sid].(peer := Some(p))])
  {
  }

  /**
   * Pairing: invite, session, PIN, the peer's completion, commit, close, acknowledgment. If every write
   * succeeds and the peer is welcome, the invite ends Paired with its PIN, without a session; member and
   * pin carry the peer's admission, in memory and on disk; a proof it supersedes is gone; nothing else
   * has changed.
   */
  lemma PairingSucceeds(d: Desk, t: Trust, id: InviteId, cid: string, now: int, pin: string, p: Peer, closed: int)
    requires Active(Mgr(d, t), cid) && id !in d.used && Welcome(t, p, cid)
    ensures var sid := |d.table|;
            After(Mgr(d, t), [DoPublish(id, cid, now), DoRegister(id, now), DoPublishPin(id, sid, pin)]
                             + ([DoComplete(id, sid, Some(p)), DoCommit(true, true, true), DoClose(false, closed)]
                                + [DoAck(id, sid, p.uuid)]))
            == Mgr(PairedDesk(d, id, cid, now, pin, p, closed), TrustAfter(t, p, cid))
  {
    var sid := |d.table|;
    var d1 := Publish(d, t, id, cid, now).0;
    var d2 := Register(d1, t.clusterId, id, now);
    var d3 := PublishPin(d2, id, sid, pin);
    var open := OpenDesk(d, id, cid, now, pin, p);
    InviteSteps(d, t, id, cid, now);
    AnswerSteps(d, d2, id, cid, now, pin, p);
    Opens(d, t, id, cid, now);
    Registers(d1, t, id, now);
    Stamps(d2, t, id, sid, pin);
    Completes(d3, t, id, sid, Some(p));
    GatesOpen(d, t, id, cid, now, pin, p);
    CommitGoesThrough(open, t, p, cid, id);
    var (d5, t5, es) := Commit(open, t, true, true, true);
    Commits(open, t);
    Closes(d5, t5, closed);
    var d6 := Close(d5, false, closed);
    Acks(d6, t5, id, sid, p.uuid);
    CloseAndAck(d, d5, id, cid, now, pin, p, closed);
    AfterSeven(Mgr(d, t), DoPublish(id, cid, now), DoRegister(id, now), DoPublishPin(id, sid, pin),
               DoComplete(id, sid, Some(p)), DoCommit(true, true, true), DoClose(false, closed), DoAck(id, sid, p.uuid),
               Mgr(d3, t), Mgr(d6, t5));
  }

  lemma AfterSeven(m: Mgr, a: Action, b: Action, c: Action, e: Action, f: Action, g: Action, h: Action, m3: Mgr,
          m6: Mgr)
    requires m3 == Act(Act(Act(m, a).0, b).0, c).0 && m6 == Act(Act(Act(m3, e).0, f).0, g).0
    ensures After(m, [a, b, c] + ([e, f, g] + [h])) == Act(m6, h).0
  {
    AfterThree(m, a, b, c, [e, f, g] + [h]);
    AfterThree(m3, e, f, g, [h]);
    AfterCons(m6, h, []);
    assert [h] + [] == [h];
  }

  /** A peer that is not welcome is not paired, whatever the disk answers: trust in it does not grow. */
  lemma UnwelcomeIsNotPaired(d: Desk, t: Trust, memberOk: bool, pinOk: bool, clearOk: bool)
    requires d.holder.Checked? && !Welcome(t, d.holder.peer, t.clusterId) && d.holder.peer.epoch != 0
    ensures var (d', t', es) := Commit(d, t, memberOk, pinOk, clearOk);
            && d'.holder.Closing? && d'.holder.to == Failed
            && t'.pins == t.pins && t'.diskPins == t.diskPins && t'.proofs == t.proofs
            && (d.holder.peer.uuid in t'.members ==> t'.members == t.members)
            && forall e | e in es :: !e.Committed? && !e.Pinned?
  {
  }
}
