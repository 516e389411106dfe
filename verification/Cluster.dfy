/**
 * The inviter side of cluster pairing (services/nvpair-cluster-manager): outbound
 * invites, pairing sessions, members, pinned certificates, removal proofs and
 * teardown. Every function below is one region the manager runs under `inviteMu`
 * or `rosterMu`, as a function from the state to the next state and the events it
 * logs. Each takes the answers of its disk writes as booleans, so every write may
 * fail, and Restart models a crash between any two regions. The class in
 * ClusterManager.dfy is proved against these functions.
 */
module Cluster {
  import opened Options

  type Uuid = string
  type InviteId = string

  datatype InviteState = Pending | Paired | Declined | Canceled | Expired | Failed | Rejected

  datatype Invite = Invite(state: InviteState, pin: Option<string>, created: int)

  /** A joiner's authenticated PairingInfo. */
  datatype Peer = Peer(uuid: Uuid, epoch: nat, cert: string)

  /**
   * A pairing session. The manager compares sessions by identity, so each one is an entry of
   * a table that only grows, and `sessions` maps an invite to the index of its live entry.
   * `gen` is the session generation its registration was checked against.
   */
  datatype Session = Session(inviteId: InviteId, clusterId: string, gen: nat, peer: Option<Peer>, awaitingAck: bool,
                             created: int)

  /** What a running cluster:invite-node holds: the cluster and session generation it began in. */
  datatype Walk = Walk(clusterId: string, gen: nat)

  /**
   * The operation inside inviteMu. A Completion releases nothing between its state check, its
   * commit and its last write, and every terminal transition reads the invite before it writes
   * it; a teardown takes only rosterMu and can come in between.
   */
  datatype Holder =
    | Idle
    | Checked(id: InviteId, sid: nat, read: Invite, peer: Peer)
    | Closing(id: InviteId, sid: nat, read: Invite, to: InviteState)

  /** Invites and sessions; `used` are the invite ids ever minted. */
  datatype Desk = Desk(
    gen: nat, table: seq<Session>, sessions: map<InviteId, nat>, invites: map<InviteId, Invite>,
    walks: map<InviteId, Walk>, holder: Holder, used: set<InviteId>)

  datatype Member = Member(clusterId: string, epoch: nat)

  datatype Pin = Pin(clusterId: string, epoch: nat, cert: string)

  /** A removal proof; `tombstone` stands for the signed fields other than the admission. */
  datatype Proof = Proof(clusterId: string, epoch: nat, tombstone: int, endorsements: seq<string>)

  /** What a running nodes:remove holds between its two regions. */
  datatype Removal = Removal(uuid: Uuid, epoch: nat, clusterId: string, selfEpoch: nat)

  /** Cluster identity, this node's admission, members, pins and proofs, with what is on disk. */
  datatype Trust = Trust(
    clusterId: string, admission: (string, nat), activated: nat, tornDown: bool, teardownPending: bool, marker: bool,
    members: map<Uuid, Member>, pins: map<Uuid, Pin>, diskPins: map<Uuid, Pin>,
    proofs: map<Uuid, Proof>, diskProofs: map<Uuid, Proof>, removals: map<nat, Removal>)

  datatype Event =
    | Published(id: InviteId, clusterId: string)
    | Wrote(id: InviteId, uuid: Uuid, epoch: nat, clusterId: string)     // all gates passed, member written
    | Committed(id: InviteId, uuid: Uuid, epoch: nat, clusterId: string) // and its pin
    | Pinned(uuid: Uuid, epoch: nat)                                     // the admission now pinned
    | Acked(id: InviteId)
    | Refused(id: InviteId, uuid: Uuid)                                  // a paired invite failed by its joiner
    | Prepared(op: nat, uuid: Uuid, epoch: nat)
    | Shadowed(op: nat, uuid: Uuid)                                      // another cluster's newer proof kept
    | Dropped(op: nat, uuid: Uuid, epoch: nat, clusterId: string)
    | Joined(clusterId: string)
    | TornDown
    | Restarted

  const NEW_DESK := Desk(0, [], map[], map[], map[], Idle, {})
  const NEW_TRUST := Trust("", ("", 0), 0, false, false, false, map[], map[], map[], map[], map[], map[])

  // ---- Trust store and removal proofs ----

  /** TrustStore.Pin: None is an error, otherwise the pins afterwards. */
  function PinPeer(pins: map<Uuid, Pin>, uuid: Uuid, pin: Pin, ok: bool): (r: Option<map<Uuid, Pin>>)
    ensures r.Some? ==> uuid in r.value && r.value[uuid].epoch >= pin.epoch && r.value[uuid].cert == pin.cert
    ensures r.None? <==> (uuid in pins && pins[uuid].cert != pin.cert)
                         || (!ok && !(uuid in pins && pins[uuid].epoch > pin.epoch))
    ensures r.Some? ==> r.value[uuid] == if uuid in pins && pins[uuid].epoch >= pin.epoch then pins[uuid] else pin
    ensures r.Some? ==> forall u | u != uuid :: (u in r.value <==> u in pins) && (u in pins ==> r.value[u] == pins[u])
  {
    if uuid in pins then
      var cur := pins[uuid];
      if cur.cert != pin.cert then None
      else if pin.epoch > cur.epoch then if ok then Some(pins[uuid := pin]) else None
      else if pin.epoch < cur.epoch then Some(pins)
      else if ok then Some(pins) else None // only endorsements are merged
    else if ok then Some(pins[uuid := pin]) else None
  }

  /** The pin files after Pin: a file is written when the pins change. */
  function DiskAfterPin(disk: map<Uuid, Pin>, pins: map<Uuid, Pin>, pins': map<Uuid, Pin>, uuid: Uuid): map<Uuid, Pin>
    requires uuid in pins'
  {
    if pins' == pins then disk else disk[uuid := pins'[uuid]]
  }

  /** mergeProofEndorsements: the first list, then what the second adds to it. */
  function MergeEndorsements(a: seq<string>, b: seq<string>): seq<string> {
    if b == [] then a
    else
      var m := MergeEndorsements(a, b[..|b| - 1]);
      var e := b[|b| - 1];
      if e in m then m else m + [e]
  }

  /** removalProofBlocksAdmission. */
  predicate Blocks(proofs: map<Uuid, Proof>, uuid: Uuid, clusterId: string, epoch: nat) {
    uuid in proofs && proofs[uuid].clusterId == clusterId && (epoch == 0 || epoch <= proofs[uuid].epoch)
  }

  /** putRemovalProof: None is an error, otherwise the proofs to hold. */
  function PutProof(proofs: map<Uuid, Proof>, uuid: Uuid, p: Proof, authentic: bool,
          ok: bool): (r: Option<map<Uuid, Proof>>)
    ensures r.Some? ==> uuid in r.value && r.value[uuid].epoch >= p.epoch
    ensures r.Some? ==> forall u | u != uuid ::
            (u in r.value <==> u in proofs) && (u in proofs ==> r.value[u] == proofs[u])
    ensures r.Some? && !(authentic && ok) ==> r.value == proofs
    ensures uuid != "" && p.epoch != 0 && authentic && ok && (uuid in proofs ==> proofs[uuid].epoch < p.epoch) ==>
              r == Some(proofs[uuid := p])
    ensures r.Some? && uuid in proofs && proofs[uuid].epoch > p.epoch ==> r.value == proofs
  {
    if uuid == "" || p.epoch == 0 then None
    else if uuid in proofs && proofs[uuid].epoch > p.epoch then Some(proofs)
    else
      var q := if uuid in proofs && proofs[uuid].epoch == p.epoch
               then p.(endorsements := MergeEndorsements(proofs[uuid].endorsements, p.endorsements)) else p;
      if uuid in proofs && proofs[uuid] == q then Some(proofs)
      else if !authentic || !ok then None
      else Some(proofs[uuid := q])
  }

  /** clearRemovalProofAfterAdmission. */
  function ClearProof(proofs: map<Uuid, Proof>, uuid: Uuid, epoch: nat, ok: bool): map<Uuid, Proof> {
    if uuid in proofs && epoch > proofs[uuid].epoch && ok then proofs - {uuid} else proofs
  }

  // ---- Cluster identity ----

  /** foundCluster, or adopting a cluster: a fresh admission epoch is activated. */
  function Join(t: Trust, cid: string, epoch: nat, ok: bool): (Trust, seq<Event>) {
    if t.teardownPending || cid == "" || epoch <= t.activated then (t, [])
    else if ok then (t.(clusterId := cid, admission := (cid, epoch), activated := epoch), [Joined(cid)])
    else (t.(clusterId := ""), [])
  }

  /** The nodes whose member row and pin name the same admission to `cid`. */
  function Authenticated(t: Trust, cid: string): set<Uuid> {
    set u | u in t.members && u in t.pins && t.members[u].clusterId == cid && t.pins[u].clusterId == cid
            && t.members[u].epoch != 0 && t.members[u].epoch == t.pins[u].epoch
  }

  /** cluster:set-identity naming the active admission's cluster; unauthenticated rows are pruned. */
  function Restore(t: Trust): Trust {
    if t.tornDown || t.admission.0 == "" then t
    else
      var keep := Authenticated(t, t.admission.0);
      t.(clusterId := t.admission.0, members := map u | u in t.members && u in keep :: t.members[u],
         pins := map u | u in t.pins && u in keep :: t.pins[u], diskPins := t.diskPins - (t.pins.Keys - keep))
  }

  /** The desk after a teardown: no session, no pending invite, a new generation. */
  function ResetDesk(d: Desk): Desk {
    d.(sessions := map[], gen := d.gen + 1,
       invites := map id | id in d.invites && d.invites[id].state != Pending :: d.invites[id])
  }

  /**
   * finishDurableTeardown. `stuck` are the pins whose files could not be deleted; live
   * authorization ends for every pin, and any failure leaves the marker in place.
   */
  function ClearTrust(t: Trust, admissionOk: bool, stuck: set<Uuid>, proofsOk: bool, restOk: bool): Trust {
    var done := admissionOk && t.pins.Keys !! stuck && proofsOk && restOk;
    t.(admission := if admissionOk then ("", 0) else t.admission, pins := map[], members := map[],
       diskPins := t.diskPins - (t.pins.Keys - stuck),
       proofs := if proofsOk then map[] else t.proofs, diskProofs := if proofsOk then map[] else t.diskProofs,
       clusterId := "", tornDown := true, marker := !done, teardownPending := !done)
  }

  /** Startup after a crash keeps the pins in `keep`, reloads `members`, and finishes a journaled teardown. */
  function Reload(t: Trust, keep: set<Uuid>, members: map<Uuid, Member>, retired: bool): Trust {
    if t.marker then
      t.(admission := ("", 0), clusterId := "", pins := map[], diskPins := map[], members := map[], proofs := map[],
         diskProofs := map[],
         removals := map[], marker := false, teardownPending := false, tornDown := true)
    else
      var pins := map u | u in t.diskPins && u in keep :: t.diskPins[u];
      t.(clusterId := t.admission.0, pins := pins, diskPins := pins, members := members, proofs := t.diskProofs,
         removals := map[], teardownPending := false, tornDown := retired)
  }

  // ---- Inviting ----

  predicate IsPending(d: Desk, id: InviteId) {
    id in d.invites && d.invites[id].state == Pending
  }

  predicate Live(d: Desk, id: InviteId, sid: nat) {
    id in d.sessions && d.sessions[id] == sid
  }

  /** A handler works on the session it looked up before taking inviteMu; it may be stale by then. */
  predicate SessionOf(d: Desk, id: InviteId, sid: nat) {
    sid < |d.table| && d.table[sid].inviteId == id
  }

  /** publishInitialInvite: the first pending record, and the generation it was made in. */
  function Publish(d: Desk, t: Trust, id: InviteId, cid: string, now: int): (Desk, seq<Event>) {
    if d.holder != Idle || id in d.used then (d, [])
    else if cid == "" || cid != t.clusterId || t.admission.0 != cid || t.admission.1 == 0 then (d, [])
    else (d.(invites := d.invites[id := Invite(Pending, None, now)], walks := d.walks[id := Walk(cid, d.gen)],
             used := d.used + {id}),
          [Published(id, cid)])
  }

  /** registerInviterSession. */
  function Register(d: Desk, clusterId: string, id: InviteId, now: int): Desk {
    if d.holder != Idle || id !in d.walks || !IsPending(d, id) then d
    else
      var w := d.walks[id];
      if clusterId == "" || clusterId != w.clusterId || d.gen != w.gen then d
      else d.(table := d.table + [Session(id, w.clusterId, w.gen, None, false, now)],
              sessions := d.sessions[id := |d.table|])
  }

  /** withPendingPairing with the function that stamps the PIN. */
  function PublishPin(d: Desk, id: InviteId, sid: nat, pin: string): Desk {
    if d.holder != Idle || !SessionOf(d, id, sid) || !Live(d, id, sid) then d
    else if IsPending(d, id) then d.(invites := d.invites[id := d.invites[id].(pin := Some(pin))])
    else d.(sessions := d.sessions - {id})
  }

  /** withPendingPairing with the function that records a failed or rejected exchange. */
  function Abandon(d: Desk, id: InviteId, sid: nat, rejected: bool): Desk {
    if d.holder != Idle || !SessionOf(d, id, sid) || !Live(d, id, sid) then d
    else
      d.(sessions := d.sessions - {id},
         invites := if IsPending(d, id)
           then d.invites[id := d.invites[id].(state := if rejected then Rejected else Failed)] else d.invites)
  }

  // ---- Completion ----

  /** handlePairingCompletion on EAP success, up to the commit: the state check and the parse. */
  function Completed(d: Desk, id: InviteId, sid: nat, parsed: Option<Peer>): Desk {
    if d.holder != Idle || !SessionOf(d, id, sid) || !IsPending(d, id) then d
    else if parsed.None? || parsed.value.epoch == 0 then d.(holder := Closing(id, sid, d.invites[id], Failed))
    else d.(holder := Checked(id, sid, d.invites[id], parsed.value))
  }

  /** The gates commitPairing rechecks under rosterMu. */
  predicate MayCommit(d: Desk, t: Trust)
    requires d.holder.Checked?
  {
    var h := d.holder;
    && SessionOf(d, h.id, h.sid) && !t.teardownPending
    && t.clusterId != "" && t.clusterId == d.table[h.sid].clusterId
    && Live(d, h.id, h.sid)
    && !Blocks(t.proofs, h.peer.uuid, t.clusterId, h.peer.epoch)
  }

  /** The writes of commitPairing: member first, then pin, then the superseded proof. */
  function Enroll(t: Trust, p: Peer, memberOk: bool, pinOk: bool, clearOk: bool): (Trust, bool) {
    var pinned := PinPeer(t.pins, p.uuid, Pin(t.clusterId, p.epoch, p.cert), pinOk);
    if !memberOk || pinned.None? then (t.(members := t.members - {p.uuid}), false)
    else
      (t.(members := t.members[p.uuid := Member(t.clusterId, p.epoch)], pins := pinned.value,
          diskPins := DiskAfterPin(t.diskPins, t.pins, pinned.value, p.uuid),
          proofs := ClearProof(t.proofs, p.uuid, p.epoch, clearOk),
          diskProofs := ClearProof(t.diskProofs, p.uuid, p.epoch, clearOk)), true)
  }

  /** The session learns its peer, and the invite is about to be closed as paired or failed. */
  function CommitDesk(d: Desk, ok: bool): Desk
    requires d.holder.Checked? && (ok ==> d.holder.sid < |d.table|)
  {
    var h := d.holder;
    d.(holder := Closing(h.id, h.sid, h.read, if ok then Paired else Failed),
       table := if ok then d.table[h.sid := d.table[h.sid].(peer := Some(h.peer))] else d.table)
  }

  /** commitPairing. */
  function Commit(d: Desk, t: Trust, memberOk: bool, pinOk: bool, clearOk: bool): (Desk, Trust, seq<Event>) {
    if !d.holder.Checked? then (d, t, [])
    else if !MayCommit(d, t) then (CommitDesk(d, false), t, [])
    else
      var id, p, cid := d.holder.id, d.holder.peer, t.clusterId;
      var (t', ok) := Enroll(t, p, memberOk, pinOk, clearOk);
      (CommitDesk(d, ok), t',
       if ok then [Wrote(id, p.uuid, p.epoch, cid), Pinned(p.uuid, t'.pins[p.uuid].epoch),
                   Committed(id, p.uuid, p.epoch, cid)]
       else [Wrote(id, p.uuid, p.epoch, cid)])
  }

  /**
   * The last write of an operation in inviteMu: the invite record it read, in its new state.
   * `gone` is the run in which a teardown deleted the record before it was read again.
   */
  function Close(d: Desk, gone: bool, now: int): Desk {
    if !d.holder.Closing? || (gone && d.holder.id in d.invites) then d
    else
      var h := d.holder;
      var n := d.(holder := Idle, invites := if gone then d.invites else d.invites[h.id := h.read.(state := h.to)]);
      if h.to != Paired then n.(sessions := d.sessions - {h.id})
      else if h.sid < |d.table| then n.(table := d.table[h.sid := d.table[h.sid].(awaitingAck := true, created := now)])
      else n
  }

  // ---- Terminal paths ----

  /** handleCancelInvite. */
  function Cancel(d: Desk, id: InviteId, sid: nat): Desk {
    if d.holder != Idle || !SessionOf(d, id, sid) || !IsPending(d, id) then d
    else d.(holder := Closing(id, sid, d.invites[id], Canceled))
  }

  /** A failure of this invite counts as the paired peer's own refusal. */
  predicate Refuses(d: Desk, id: InviteId, sid: nat, to: InviteState, caller: Uuid) {
    && d.holder == Idle && SessionOf(d, id, sid) && id in d.invites && d.invites[id].state == Paired && to == Failed
    && d.table[sid].awaitingAck && d.table[sid].peer.Some? && caller != "" && caller == d.table[sid].peer.value.uuid
  }

  /** The peer's member row and pin go, if they are still the ones this session committed. */
  function RollBack(t: Trust, clusterId: string, p: Peer, removeOk: bool): Trust {
    if !(p.uuid in t.members && p.uuid in t.pins && t.members[p.uuid] == Member(clusterId, p.epoch)
         && t.pins[p.uuid].clusterId == clusterId && t.pins[p.uuid].epoch == p.epoch) then t
    else t.(pins := t.pins - {p.uuid}, diskPins := if removeOk then t.diskPins - {p.uuid} else t.diskPins,
            members := t.members - {p.uuid})
  }

  /** handlePairingTerminalSignal: decline, failure or expiry reported by the joiner. */
  function Signal(d: Desk, t: Trust, id: InviteId, sid: nat, to: InviteState, caller: Uuid,
          removeOk: bool): (Desk, Trust, seq<Event>)
  {
    if Refuses(d, id, sid, to, caller) then
      (d.(holder := Closing(id, sid, d.invites[id], Failed)),
       RollBack(t, d.table[sid].clusterId, d.table[sid].peer.value, removeOk), [Refused(id, caller)])
    else if d.holder == Idle && SessionOf(d, id, sid) && IsPending(d, id)
      && (to == Declined || to == Failed || to == Expired) then
      (d.(holder := Closing(id, sid, d.invites[id], to)), t, [])
    else (d, t, [])
  }

  /** handlePairingAck. */
  function Ack(d: Desk, id: InviteId, sid: nat, caller: Uuid): (Desk, seq<Event>) {
    if d.holder != Idle || !SessionOf(d, id, sid) || id !in d.invites || d.invites[id].state != Paired then (d, [])
    else
      var s := d.table[sid];
      if !s.awaitingAck || s.peer.None? || s.peer.value.uuid != caller then (d, [])
      else (d.(table := d.table[sid := s.(awaitingAck := false)], sessions := d.sessions - {id}), [Acked(id)])
  }

  /** The session is live, unlocked, and has waited for its ack past the cutoff. */
  predicate AckLapsed(d: Desk, id: InviteId, cutoff: int, busy: set<InviteId>) {
    && id in d.sessions && id !in busy && d.sessions[id] < |d.table|
    && var s := d.table[d.sessions[id]]; s.created != 0 && s.created <= cutoff && s.awaitingAck
  }

  predicate InviteLapsed(d: Desk, id: InviteId, cutoff: int) {
    id in d.invites && d.invites[id].state == Pending && d.invites[id].created <= cutoff
  }

  function Settle(d: Desk, k: nat, cutoff: int, busy: set<InviteId>): Session
    requires k < |d.table|
  {
    var s := d.table[k];
    if AckLapsed(d, s.inviteId, cutoff, busy) && d.sessions[s.inviteId] == k then s.(awaitingAck := false) else s
  }

  /** expirePendingInvites, with expirePreInviteSessions; `busy` are the sessions whose lock is taken. */
  function Expire(d: Desk, cutoff: int, busy: set<InviteId>): Desk {
    if d.holder != Idle then d
    else
      d.(table := seq(|d.table|, k requires 0 <= k < |d.table| => Settle(d, k, cutoff, busy)),
         sessions := map id | id in d.sessions && !AckLapsed(d, id, cutoff, busy) && !InviteLapsed(d, id, cutoff) ::
           d.sessions[id],
         invites := map id | id in d.invites ::
                      if InviteLapsed(d, id, cutoff) then d.invites[id].(state := Expired, pin := None)
                        else d.invites[id])
  }

  // ---- Removal ----

  /** What nodes:remove demands of a member before it signs a proof. */
  predicate Removable(t: Trust, uuid: Uuid) {
    && uuid in t.members && uuid in t.pins && t.admission.0 != "" && t.clusterId == t.admission.0 && t.admission.1 != 0
    && t.members[uuid].clusterId == t.admission.0 && t.members[uuid].epoch != 0
    && t.pins[uuid].clusterId == t.admission.0 && t.pins[uuid].epoch == t.members[uuid].epoch
  }

  /** The first region of handleNodesRemove: persist the proof. */
  function Prepare(t: Trust, op: nat, uuid: Uuid, tombstone: int, endorsements: seq<string>,
          ok: bool): (Trust, seq<Event>)
  {
    if op in t.removals || !Removable(t, uuid) then (t, [])
    else
      var e := t.members[uuid].epoch;
      var put := PutProof(t.proofs, uuid, Proof(t.clusterId, e, tombstone, endorsements), true, ok);
      if put.None? then (t, [])
      else (t.(proofs := put.value, diskProofs := put.value,
               removals := t.removals[op := Removal(uuid, e, t.clusterId, t.admission.1)]),
            [Prepared(op, uuid, e)] + if put.value[uuid].clusterId != t.clusterId then [Shadowed(op, uuid)] else [])
  }

  /** The second region's recheck of everything the first one captured. */
  predicate StillRemovable(t: Trust, r: Removal) {
    Removable(t, r.uuid) && t.admission == (r.clusterId, r.selfEpoch) && t.members[r.uuid].epoch == r.epoch
  }

  /** The second region: drop the pin and the member. */
  function Drop(t: Trust, op: nat, ok: bool): (Trust, seq<Event>) {
    if op !in t.removals then (t, [])
    else
      var r := t.removals[op];
      var n := t.(removals := t.removals - {op});
      if !StillRemovable(t, r) || !ok then (n, [])
      else (n.(pins := t.pins - {r.uuid}, diskPins := t.diskPins - {r.uuid}, members := t.members - {r.uuid}),
            [Dropped(op, r.uuid, r.epoch, r.clusterId)])
  }

  // ---- Gossip ----

  /** One endorsed entry of a merged roster (pinEntry). */
  function Admit(t: Trust, uuid: Uuid, epoch: nat, cert: string, memberOk: bool, pinOk: bool,
          clearOk: bool): (Trust, seq<Event>)
  {
    if t.teardownPending || t.clusterId == "" || epoch == 0 || Blocks(t.proofs, uuid, t.clusterId, epoch)
       || (uuid in t.pins && epoch <= t.pins[uuid].epoch)
    then (t, [])
    else
      var (t', ok) := Enroll(t, Peer(uuid, epoch, cert), memberOk, pinOk, clearOk);
      if !ok then (t, []) else (t', [Pinned(uuid, t'.pins[uuid].epoch)])
  }

  /** What a stored removal of (uuid, epoch) does: it supersedes the pin, or the pin supersedes it. */
  function Enforce(t: Trust, uuid: Uuid, epoch: nat, clearOk: bool, removeOk: bool): Trust {
    if uuid in t.pins && t.pins[uuid].epoch != epoch then
      if t.pins[uuid].epoch < epoch then t
      else t.(proofs := ClearProof(t.proofs, uuid, t.pins[uuid].epoch, clearOk),
              diskProofs := ClearProof(t.diskProofs, uuid, t.pins[uuid].epoch, clearOk))
    else if uuid in t.members && t.members[uuid].epoch != epoch then t
    else if uuid in t.pins && !removeOk then t
    else t.(pins := t.pins - {uuid}, diskPins := if uuid in t.pins then t.diskPins - {uuid} else t.diskPins,
            members := t.members - {uuid})
  }

  /** applyRemovalProofs on one verified proof. */
  function Gossip(t: Trust, uuid: Uuid, p: Proof, putOk: bool, clearOk: bool, removeOk: bool): Trust {
    if t.teardownPending || t.clusterId == "" || p.clusterId != t.clusterId then t
    else
      var put := PutProof(t.proofs, uuid, p, uuid in t.pins && t.pins[uuid].epoch == p.epoch, putOk);
      if put.None? then t
        else Enforce(t.(proofs := put.value, diskProofs := put.value), uuid, p.epoch, clearOk, removeOk)
  }

  /** leaveCluster's departure proof for this node itself. */
  function Depart(t: Trust, self: Uuid, tombstone: int, endorsements: seq<string>, ok: bool): Trust {
    if t.admission.0 == "" then t
    else
      var put := PutProof(t.proofs, self, Proof(t.admission.0, t.admission.1, tombstone, endorsements), true, ok);
      if put.None? then t else t.(proofs := put.value, diskProofs := put.value)
  }
}
