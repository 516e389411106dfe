/**
 * The manager's regions as methods over its fields, each proved against the function
 * of Cluster.dfy that specifies it. A region is entered with its locks held; `Holder`
 * says which operation is inside inviteMu between two of its regions.
 */
module ClusterManager {
  import opened Options
  import opened Cluster

  /** mergeProofEndorsements, with the set of endorsements already seen. */
  method UnionEndorsements(a: seq<string>, b: seq<string>) returns (out: seq<string>)
    ensures out == MergeEndorsements(a, b)
  {
    out := a;
    var seen := set e | e in a;
    for i := 0 to |b|
      invariant out == MergeEndorsements(a, b[..i])
      invariant seen == set e | e in out
    {
      assert b[..i + 1][..i] == b[..i];
      if b[i] !in seen {
        seen := seen + {b[i]};
        out := out + [b[i]];
      }
    }
    assert b[..|b|] == b;
  }

  /** The union keeps the first list as its prefix, loses nothing of the second and repeats nothing of it. */
  lemma {:induction false} MergeIsUnion(a: seq<string>, b: seq<string>)
    ensures var m := MergeEndorsements(a, b);
            && a <= m && (forall e :: e in m <==> e in a || e in b)
            && (forall i, j | 0 <= i < j < |m| && |a| <= j :: m[i] != m[j])
  {
    if b != [] {
      MergeIsUnion(a, b[..|b| - 1]);
      assert b == b[..|b| - 1] + [b[|b| - 1]];
    }
  }

  class Manager {
    var clusterId: string
    var admission: (string, nat)
    var activated: nat
    var tornDown: bool
    var teardownPending: bool
    var marker: bool
    var members: map<Uuid, Member>
    var pins: map<Uuid, Pin>
    var diskPins: map<Uuid, Pin>
    var proofs: map<Uuid, Proof>
    var diskProofs: map<Uuid, Proof>
    var removals: map<nat, Removal>

    var gen: nat
    var table: seq<Session>
    var sessions: map<InviteId, nat>
    var invites: map<InviteId, Invite>
    var walks: map<InviteId, Walk>
    var holder: Holder
    var used: set<InviteId>

    ghost function D(): Desk
      reads this
    {
      Desk(gen, table, sessions, invites, walks, holder, used)
    }

    ghost function T(): Trust
      reads this
    {
      Trust(clusterId, admission, activated, tornDown, teardownPending, marker, members, pins, diskPins, proofs,
            diskProofs, removals)
    }

    constructor ()
      ensures D() == NEW_DESK && T() == NEW_TRUST
    {
      clusterId, admission, activated, tornDown, teardownPending, marker := "", ("", 0), 0, false, false, false;
      members, pins, diskPins, proofs, diskProofs, removals := map[], map[], map[], map[], map[], map[];
      gen, table, sessions, invites, walks, holder, used := 0, [], map[], map[], map[], Idle, {};
    }

    // ---- Stores ----

    /** putRemovalProof: visible only once it is on disk. */
    method PutRemovalProof(uuid: Uuid, proof: Proof, authentic: bool, written: bool) returns (err: bool)
      requires diskProofs == proofs
      modifies this`proofs, this`diskProofs
      ensures var put := PutProof(old(proofs), uuid, proof, authentic, written);
              err == put.None? && proofs == (if err then old(proofs) else put.value) && diskProofs == proofs
    {
      if uuid == "" || proof.epoch == 0 { return true; }
      var p := proof;
      if uuid in proofs {
        var cur := proofs[uuid];
        if cur.epoch > p.epoch { return false; }
        if cur.epoch == p.epoch {
          var merged := UnionEndorsements(cur.endorsements, p.endorsements);
          p := p.(endorsements := merged);
          if cur == p { return false; }
        }
      }
      if !authentic { return true; }
      var before := proofs;
      proofs := proofs[uuid := p];
      if !written {
        proofs := before;
        return true;
      }
      diskProofs := proofs;
      return false;
    }

    /** clearRemovalProofAfterAdmission. */
    method ClearRemovalProof(uuid: Uuid, epoch: nat, written: bool)
      requires diskProofs == proofs
      modifies this`proofs, this`diskProofs
      ensures proofs == ClearProof(old(proofs), uuid, epoch, written) && diskProofs == proofs
    {
      if uuid !in proofs || epoch <= proofs[uuid].epoch { return; }
      var before := proofs;
      proofs := proofs - {uuid};
      if !written {
        proofs := before;
        return;
      }
      diskProofs := proofs;
    }

    /** TrustStore.Pin: the file first, then the map. */
    method PinCertificate(uuid: Uuid, pin: Pin, written: bool) returns (err: bool)
      modifies this`pins, this`diskPins
      ensures var after := PinPeer(old(pins), uuid, pin, written);
              && err == after.None? && pins == (if err then old(pins) else after.value)
              && diskPins == (if err then old(diskPins) else DiskAfterPin(old(diskPins), old(pins), pins, uuid))
    {
      if uuid in pins {
        var cur := pins[uuid];
        if cur.cert != pin.cert { return true; }
        if pin.epoch < cur.epoch { return false; }
        if pin.epoch == cur.epoch { return !written; }
      }
      if !written { return true; }
      diskPins := diskPins[uuid := pin];
      assert pins[uuid := pin] != pins by { assert pins[uuid := pin][uuid] == pin; }
      pins := pins[uuid := pin];
      return false;
    }

    // ---- Inviting ----

    method PublishInitialInvite(id: InviteId, cid: string, now: int) returns (generation: nat, ok: bool)
      requires holder == Idle && id !in used
      modifies this`invites, this`walks, this`used
      ensures D() == Publish(old(D()), T(), id, cid, now).0
      ensures ok == (cid != "" && cid == clusterId && admission.0 == cid && admission.1 != 0)
      ensures ok ==> generation == gen
    {
      if cid == "" || cid != clusterId || admission.0 != cid || admission.1 == 0 { return 0, false; }
      invites := invites[id := Invite(Pending, None, now)];
      walks := walks[id := Walk(cid, gen)];
      used := used + {id};
      return gen, true;
    }

    method RegisterInviterSession(id: InviteId, now: int) returns (ok: bool)
      requires holder == Idle && id in walks
      modifies this`table, this`sessions
      ensures D() == Register(old(D()), clusterId, id, now)
      ensures ok <==> |table| == |old(table)| + 1
    {
      if id !in invites || invites[id].state != Pending { return false; }
      if clusterId == "" || clusterId != walks[id].clusterId || gen != walks[id].gen { return false; }
      sessions := sessions[id := |table|];
      table := table + [Session(id, walks[id].clusterId, walks[id].gen, None, false, now)];
      return true;
    }

    /** withPendingPairing, stamping a PIN (`to` is None) or recording a failed exchange. */
    method WithPendingPairing(id: InviteId, sid: nat, to: Option<bool>, pin: string) returns (applied: bool)
      requires holder == Idle && SessionOf(D(), id, sid)
      modifies this`invites, this`sessions
      ensures D() == if to.None? then PublishPin(old(D()), id, sid, pin) else Abandon(old(D()), id, sid, to.value)
      ensures applied <==> Live(old(D()), id, sid) && IsPending(old(D()), id)
    {
      if id !in sessions || sessions[id] != sid { return false; }
      if id !in invites || invites[id].state != Pending {
        sessions := sessions - {id};
        return false;
      }
      if to.None? {
        invites := invites[id := invites[id].(pin := Some(pin))];
      } else {
        sessions := sessions - {id};
        invites := invites[id := invites[id].(state := if to.value then Rejected else Failed)];
      }
      return true;
    }

    // ---- Completion ----

    method CheckCompletion(id: InviteId, sid: nat, parsed: Option<Peer>) returns (conflict: bool)
      requires holder == Idle && SessionOf(D(), id, sid)
      modifies this`holder
      ensures D() == Completed(old(D()), id, sid, parsed) && conflict == !IsPending(D(), id)
    {
      if id !in invites || invites[id].state != Pending { return true; }
      if parsed.None? || parsed.value.epoch == 0 {
        holder := Closing(id, sid, invites[id], Failed);
      } else {
        holder := Checked(id, sid, invites[id], parsed.value);
      }
      return false;
    }

    /** The rechecks of commitPairing, in its order. */
    method CommitGates() returns (open: bool)
      requires holder.Checked? && SessionOf(D(), holder.id, holder.sid)
      ensures open == MayCommit(D(), T())
    {
      var h, s := holder, table[holder.sid];
      if teardownPending { return false; }
      if clusterId == "" || clusterId != s.clusterId { return false; }
      if h.id !in sessions || sessions[h.id] != h.sid { return false; }
      if h.peer.uuid in proofs && proofs[h.peer.uuid].clusterId == s.clusterId
         && (h.peer.epoch == 0 || h.peer.epoch <= proofs[h.peer.uuid].epoch) { return false; }
      return true;
    }

    /** What the writes of a commit leave, and whether they all succeeded. */
    static ghost function CommitWrites(d: Desk, t: Trust, memberOk: bool, pinOk: bool, clearOk: bool): (Trust, bool)
      requires d.holder.Checked?
    {
      if MayCommit(d, t) then Enroll(t, d.holder.peer, memberOk, pinOk, clearOk) else (t, false)
    }

    static lemma CommitParts(d: Desk, t: Trust, memberOk: bool, pinOk: bool, clearOk: bool)
      requires d.holder.Checked?
      ensures var (t', ok) := CommitWrites(d, t, memberOk, pinOk, clearOk);
              var c := Commit(d, t, memberOk, pinOk, clearOk);
              c.0 == CommitDesk(d, ok) && c.1 == t'
    {
    }

    /** The gates, and behind them the writes. */
    method WriteCommit(memberOk: bool, pinOk: bool, clearOk: bool) returns (committed: bool)
      requires holder.Checked? && SessionOf(D(), holder.id, holder.sid) && diskProofs == proofs
      modifies this`members, this`pins, this`diskPins, this`proofs, this`diskProofs
      ensures (T(), committed) == CommitWrites(old(D()), old(T()), memberOk, pinOk, clearOk)
      ensures D() == old(D())
    {
      var open := CommitGates();
      committed := false;
      if open {
        committed := EnrollPeer(holder.peer, memberOk, pinOk, clearOk);
      }
    }

    /** commitPairing. */
    method CommitPairing(memberOk: bool, pinOk: bool, clearOk: bool) returns (committed: bool)
      requires holder.Checked? && SessionOf(D(), holder.id, holder.sid) && diskProofs == proofs
      modifies this`holder, this`members, this`pins, this`diskPins, this`proofs, this`diskProofs, this`table
      ensures D() == Commit(old(D()), old(T()), memberOk, pinOk, clearOk).0
      ensures T() == Commit(old(D()), old(T()), memberOk, pinOk, clearOk).1
      ensures committed == (holder.Closing? && holder.to == Paired)
    {
      CommitParts(D(), T(), memberOk, pinOk, clearOk);
      committed := WriteCommit(memberOk, pinOk, clearOk);
      SettleCommit(committed);
    }

    /** finalizePairing's bookkeeping: the session learns its peer, or the invite is going to fail. */
    method SettleCommit(committed: bool)
      requires holder.Checked? && holder.sid < |table|
      modifies this`holder, this`table
      ensures D() == CommitDesk(old(D()), committed)
    {
      if committed {
        table := table[holder.sid := table[holder.sid].(peer := Some(holder.peer))];
      }
      holder := Closing(holder.id, holder.sid, holder.read, if committed then Paired else Failed);
    }

    /** The writes of a commit: the member row before the pin, the superseded proof last. */
    method EnrollPeer(p: Peer, memberOk: bool, pinOk: bool, clearOk: bool) returns (ok: bool)
      requires diskProofs == proofs
      modifies this`members, this`pins, this`diskPins, this`proofs, this`diskProofs
      ensures (T(), ok) == Enroll(old(T()), p, memberOk, pinOk, clearOk)
    {
      members := members[p.uuid := Member(clusterId, p.epoch)];
      if !memberOk {
        members := members - {p.uuid};
        assert members == old(members) - {p.uuid};
        return false;
      }
      var err := PinCertificate(p.uuid, Pin(clusterId, p.epoch, p.cert), pinOk);
      if err {
        members := members - {p.uuid};
        assert members == old(members) - {p.uuid};
        return false;
      }
      ClearRemovalProof(p.uuid, p.epoch, clearOk);
      return true;
    }

    /** The invite write that ends an operation; `gone` is a record deleted by a teardown meanwhile. */
    method FinishInvite(gone: bool, now: int)
      requires holder.Closing? && SessionOf(D(), holder.id, holder.sid) && (gone ==> holder.id !in invites)
      modifies this`holder, this`invites, this`sessions, this`table
      ensures D() == Close(old(D()), gone, now)
    {
      var h := holder;
      if !gone {
        invites := invites[h.id := h.read.(state := h.to)];
      }
      if h.to == Paired {
        table := table[h.sid := table[h.sid].(awaitingAck := true, created := now)];
      } else {
        sessions := sessions - {h.id};
      }
      holder := Idle;
    }

    // ---- Terminal paths ----

    method CancelInvite(id: InviteId, sid: nat) returns (ok: bool)
      requires holder == Idle && SessionOf(D(), id, sid)
      modifies this`holder
      ensures D() == Cancel(old(D()), id, sid) && ok == (holder != Idle)
    {
      if id !in invites || invites[id].state != Pending { return false; }
      holder := Closing(id, sid, invites[id], Canceled);
      return true;
    }

    /** The composition region of a refused pairing; a pin file that cannot be deleted is forgotten. */
    method RollBackPairing(cid: string, p: Peer, removeOk: bool)
      modifies this`pins, this`diskPins, this`members
      ensures T() == RollBack(old(T()), cid, p, removeOk)
    {
      if p.uuid in members && p.uuid in pins && members[p.uuid].clusterId == cid && pins[p.uuid].clusterId == cid
         && members[p.uuid].epoch == p.epoch && pins[p.uuid].epoch == p.epoch
      {
        if removeOk {
          diskPins := diskPins - {p.uuid};
        }
        pins := pins - {p.uuid};
        members := members - {p.uuid};
      }
    }

    method TerminalSignal(id: InviteId, sid: nat, to: InviteState, caller: Uuid, removeOk: bool)
      requires holder == Idle && SessionOf(D(), id, sid) && (to == Declined || to == Failed || to == Expired)
      modifies this`holder, this`pins, this`diskPins, this`members
      ensures D() == Signal(old(D()), old(T()), id, sid, to, caller, removeOk).0
      ensures T() == Signal(old(D()), old(T()), id, sid, to, caller, removeOk).1
    {
      if id !in invites { return; }
      var cur, s := invites[id], table[sid];
      if cur.state == Paired && to == Failed && s.awaitingAck {
        if s.peer.None? || caller == "" || caller != s.peer.value.uuid { return; }
        RollBackPairing(s.clusterId, s.peer.value, removeOk);
        holder := Closing(id, sid, cur, Failed);
        return;
      }
      if cur.state == Pending {
        holder := Closing(id, sid, cur, to);
      }
    }

    method AckPairing(id: InviteId, sid: nat, caller: Uuid)
      requires holder == Idle && SessionOf(D(), id, sid)
      modifies this`table, this`sessions
      ensures D() == Ack(old(D()), id, sid, caller).0
    {
      if id !in invites || invites[id].state != Paired { return; }
      var s := table[sid];
      if !s.awaitingAck || s.peer.None? || s.peer.value.uuid != caller { return; }
      table := table[sid := s.(awaitingAck := false)];
      sessions := sessions - {id};
    }

    // ---- Removal ----

    method PrepareRemoval(op: nat, uuid: Uuid, tombstone: int, endorsements: seq<string>, written: bool)
      returns (err: bool)
      requires op !in removals && diskProofs == proofs
      modifies this`proofs, this`diskProofs, this`removals
      ensures T() == Prepare(old(T()), op, uuid, tombstone, endorsements, written).0
      ensures err <==> op !in removals
    {
      if uuid !in members { return true; }
      var node := members[uuid];
      if admission.0 == "" || clusterId != admission.0 || admission.1 == 0
         || node.clusterId != admission.0 || node.epoch == 0
         || uuid !in pins || pins[uuid].clusterId != admission.0 || pins[uuid].epoch != node.epoch { return true; }
      err := PutRemovalProof(uuid, Proof(admission.0, node.epoch, tombstone, endorsements), true, written);
      if !err {
        removals := removals[op := Removal(uuid, node.epoch, admission.0, admission.1)];
      }
    }

    method DropRemoval(op: nat, removed: bool) returns (dropped: bool)
      requires op in removals && removals[op].clusterId != "" && removals[op].selfEpoch != 0 && removals[op].epoch != 0
      modifies this`removals, this`pins, this`diskPins, this`members
      ensures T() == Drop(old(T()), op, removed).0
      ensures dropped <==> removed && StillRemovable(old(T()), old(removals)[op])
    {
      var r := removals[op];
      removals := removals - {op};
      if admission.0 != r.clusterId || admission.1 != r.selfEpoch || clusterId != r.clusterId
         || r.uuid !in members || r.uuid !in pins
         || members[r.uuid].clusterId != r.clusterId || pins[r.uuid].clusterId != r.clusterId
         || members[r.uuid].epoch != r.epoch || pins[r.uuid].epoch != r.epoch { return false; }
      if !removed { return false; }
      diskPins := diskPins - {r.uuid};
      pins := pins - {r.uuid};
      members := members - {r.uuid};
      return true;
    }

    // ---- Teardown ----

    /** finishDurableTeardown's walk over the pins: a file that cannot be deleted is forgotten all the same. */
    method UnpinAll(stuck: set<Uuid>) returns (err: bool)
      modifies this`pins, this`diskPins
      ensures pins == map[] && diskPins == old(diskPins) - (old(pins).Keys - stuck)
      ensures err <==> !(old(pins).Keys !! stuck)
    {
      var todo := pins.Keys;
      ghost var done: set<Uuid> := {};
      err := false;
      while todo != {}
        invariant pins.Keys == todo && done !! todo && done + todo == old(pins).Keys
        invariant diskPins == old(diskPins) - (done - stuck)
        invariant err <==> !(done !! stuck)
        decreases |todo|
      {
        var u :| u in todo;
        Unpinned(old(diskPins), done, u, stuck);
        if u in stuck {
          err := true;
        } else {
          diskPins := diskPins - {u};
        }
        pins := pins - {u};
        todo := todo - {u};
        done := done + {u};
      }
      assert done == old(pins).Keys;
    }

    static lemma Unpinned(disk: map<Uuid, Pin>, done: set<Uuid>, u: Uuid, stuck: set<Uuid>)
      ensures disk - (done + {u} - stuck) == if u in stuck then disk - (done - stuck) else disk - (done - stuck) - {u}
      ensures done + {u} !! stuck <==> done !! stuck && u !in stuck
    {
      if u in stuck {
        assert done + {u} - stuck == done - stuck;
      } else {
        assert done + {u} - stuck == (done - stuck) + {u};
      }
      assert u in done + {u};
      assert forall x | x in done :: x in done + {u};
    }

    /** resetInvites. */
    method ResetInvites()
      modifies this`invites
      ensures invites == map id | id in old(invites) && old(invites)[id].state != Pending :: old(invites)[id]
    {
      var todo := invites.Keys;
      while todo != {}
        invariant todo <= old(invites).Keys
        invariant invites == map id | id in old(invites) && (id in todo || old(invites)[id].state != Pending) ::
                  old(invites)[id]
        decreases |todo|
      {
        var id :| id in todo;
        if invites[id].state == Pending {
          invites := invites - {id};
        }
        todo := todo - {id};
      }
    }

    /** resetSessions and resetInvites. */
    method AbandonPairings()
      modifies this`sessions, this`gen, this`invites
      ensures D() == ResetDesk(old(D())) && T() == old(T())
    {
      sessions, gen := map[], gen + 1;
      ResetInvites();
    }

    /** The durable side of finishDurableTeardown: every surface is cleared, whatever fails on the way. */
    method ClearAuthority(admissionOk: bool, stuck: set<Uuid>, proofsOk: bool, restOk: bool) returns (err: bool)
      modifies this`admission, this`pins, this`diskPins, this`members, this`proofs, this`diskProofs
      modifies this`clusterId, this`tornDown, this`marker, this`teardownPending
      ensures T() == ClearTrust(old(T()), admissionOk, stuck, proofsOk, restOk) && err == teardownPending
    {
      var stuckPins := UnpinAll(stuck);
      ClearRecords(admissionOk, proofsOk);
      err := !admissionOk || stuckPins || !proofsOk || !restOk;
      marker, teardownPending := err, err;
    }

    method ClearRecords(admissionOk: bool, proofsOk: bool)
      modifies this`admission, this`members, this`proofs, this`diskProofs, this`clusterId, this`tornDown
      ensures members == map[] && clusterId == "" && tornDown
      ensures admission == if admissionOk then ("", 0) else old(admission)
      ensures proofs == if proofsOk then map[] else old(proofs)
      ensures diskProofs == if proofsOk then map[] else old(diskProofs)
    {
      members := map[];
      if admissionOk { admission := ("", 0); }
      if proofsOk { proofs, diskProofs := map[], map[]; }
      clusterId, tornDown := "", true;
    }

    /** teardownClusterLocalLocked. */
    method Teardown(beginOk: bool, admissionOk: bool, stuck: set<Uuid>, proofsOk: bool, restOk: bool)
      returns (err: bool)
      modifies this
      ensures D() == if beginOk then ResetDesk(old(D())) else old(D())
      ensures T() == if beginOk then ClearTrust(old(T()), admissionOk, stuck, proofsOk, restOk)
              else old(T()).(teardownPending := false)
    {
      if !beginOk {
        teardownPending := false;
        return true;
      }
      err := ClearAuthority(admissionOk, stuck, proofsOk, restOk);
      AbandonPairings();
    }

    // ---- Expiry ----

    /** expirePreInviteSessions on inviter sessions. */
    method ExpireAcks(cutoff: int, busy: set<InviteId>)
      requires forall id | id in sessions :: SessionOf(D(), id, sessions[id])
      modifies this`table, this`sessions
      ensures table == seq(|old(table)|, k requires 0 <= k < |old(table)| => Settle(old(D()), k, cutoff, busy))
      ensures sessions == map id | id in old(sessions) && !AckLapsed(old(D()), id, cutoff, busy) :: old(sessions)[id]
    {
      ghost var d := D();
      var candidates := sessions;
      var todo := candidates.Keys;
      assert table == SettledBut(d, cutoff, busy, todo) by { NothingSettled(d, cutoff, busy); }
      while todo != {}
        invariant todo <= candidates.Keys
        invariant table == SettledBut(d, cutoff, busy, todo) && sessions == KeptBut(d, cutoff, busy, todo)
        decreases |todo|
      {
        var id :| id in todo;
        SettleOne(d, cutoff, busy, todo, id);
        var sid := candidates[id];
        var s := table[sid];
        if id !in busy && s.created != 0 && s.created <= cutoff && s.awaitingAck {
          sessions := sessions - {id};
          table := table[sid := s.(awaitingAck := false)];
        }
        todo := todo - {id};
      }
    }

    /** The table and the sessions when every session but those in `todo` has been looked at. */
    static ghost function SettledBut(d: Desk, cutoff: int, busy: set<InviteId>, todo: set<InviteId>): seq<Session> {
      seq(|d.table|, k requires 0 <= k < |d.table| =>
            if d.table[k].inviteId in todo then d.table[k] else Settle(d, k, cutoff, busy))
    }

    static ghost function KeptBut(d: Desk, cutoff: int, busy: set<InviteId>, todo: set<InviteId>): map<InviteId, nat> {
      map id | id in d.sessions && (id in todo || !AckLapsed(d, id, cutoff, busy)) :: d.sessions[id]
    }

    static lemma NothingSettled(d: Desk, cutoff: int, busy: set<InviteId>)
      ensures SettledBut(d, cutoff, busy, d.sessions.Keys) == d.table
      ensures KeptBut(d, cutoff, busy, d.sessions.Keys) == d.sessions
    {
    }

    static lemma SettleOne(d: Desk, cutoff: int, busy: set<InviteId>, todo: set<InviteId>, id: InviteId)
      requires id in todo && id in d.sessions && SessionOf(d, id, d.sessions[id])
      ensures var sid, before := d.sessions[id], SettledBut(d, cutoff, busy, todo);
              && before[sid] == d.table[sid]
              && SettledBut(d, cutoff, busy, todo - {id})
                 == if AckLapsed(d, id, cutoff, busy) then before[sid := d.table[sid].(awaitingAck := false)]
                    else before
      ensures KeptBut(d, cutoff, busy, todo - {id})
              == if AckLapsed(d, id, cutoff, busy) then KeptBut(d, cutoff, busy, todo) - {id}
                 else KeptBut(d, cutoff, busy, todo)
    {
    }

    /** The sweep over pending outbound invites. */
    method ExpireInvites(cutoff: int)
      modifies this`sessions, this`invites
      ensures invites == SweptBut(old(D()), cutoff, {}) && sessions == HeldBut(old(D()), cutoff, {})
    {
      ghost var d := D();
      var todo := invites.Keys;
      NothingSwept(d, cutoff);
      while todo != {}
        invariant todo <= d.invites.Keys && invites == SweptBut(d, cutoff, todo) && sessions == HeldBut(d, cutoff, todo)
        decreases |todo|
      {
        var id :| id in todo;
        SweepOne(d, cutoff, todo, id);
        if invites[id].state == Pending && invites[id].created <= cutoff {
          invites := invites[id := invites[id].(state := Expired, pin := None)];
          sessions := sessions - {id};
        }
        todo := todo - {id};
      }
    }

    static ghost function SweptBut(d: Desk, cutoff: int, todo: set<InviteId>): map<InviteId, Invite> {
      map id | id in d.invites ::
        if id !in todo && InviteLapsed(d, id, cutoff) then d.invites[id].(state := Expired, pin := None)
          else d.invites[id]
    }

    static ghost function HeldBut(d: Desk, cutoff: int, todo: set<InviteId>): map<InviteId, nat> {
      map id | id in d.sessions && (id in todo || !InviteLapsed(d, id, cutoff)) :: d.sessions[id]
    }

    static lemma NothingSwept(d: Desk, cutoff: int)
      ensures SweptBut(d, cutoff, d.invites.Keys) == d.invites && HeldBut(d, cutoff, d.invites.Keys) == d.sessions
    {
    }

    static lemma SweepOne(d: Desk, cutoff: int, todo: set<InviteId>, id: InviteId)
      requires id in todo && id in d.invites
      ensures SweptBut(d, cutoff, todo)[id] == d.invites[id]
      ensures SweptBut(d, cutoff, todo - {id})
              == if InviteLapsed(d, id, cutoff)
                 then SweptBut(d, cutoff, todo)[id := d.invites[id].(state := Expired, pin := None)]
                 else SweptBut(d, cutoff, todo)
      ensures HeldBut(d, cutoff, todo - {id})
              == if InviteLapsed(d, id, cutoff) then HeldBut(d, cutoff, todo) - {id} else HeldBut(d, cutoff, todo)
    {
    }

    /** expirePendingInvites on outbound invites. */
    method ExpirePendingInvites(cutoff: int, busy: set<InviteId>)
      requires holder == Idle && forall id | id in sessions :: SessionOf(D(), id, sessions[id])
      modifies this`table, this`sessions, this`invites
      ensures D() == Expire(old(D()), cutoff, busy)
    {
      ghost var d := D();
      ExpireAcks(cutoff, busy);
      ghost var d1 := D();
      ExpireInvites(cutoff);
      assert forall id :: InviteLapsed(d1, id, cutoff) == InviteLapsed(d, id, cutoff);
      assert invites == Expire(d, cutoff, busy).invites;
      assert sessions == Expire(d, cutoff, busy).sessions;
    }
  }
}
