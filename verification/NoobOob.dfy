/**
 * The out-of-band step against any network. A role takes a Noob exactly when it waits for
 * one in that direction, and believes a fingerprint exactly when the two transcripts agree
 * in every field: whatever the network did to the Initial Exchange, an accepted message
 * vouches for all of it.
 */
module NoobOob {
  import opened Options
  import opened Kdf
  import opened Noob
  import opened NoobGuards
  import opened NoobNetwork
  import opened NoobAgreement

  /** Waiting, and the direction settled on (1 peer to server, 2 server to peer, 3 both) includes this one. */
  predicate Awaits(state: int, dirp: int, dir: int) {
    state == 1 && (dirp == dir || dirp == 3)
  }

  predicate Names(m: Method, msg: OobMessage) {
    m.peerId == "" || m.peerId == msg.peerId
  }

  predicate CarriesNoob(l: Lib, msg: OobMessage) {
    l.unb64(msg.noob).Some? && |l.unb64(msg.noob).value| == 16
  }

  /** The fingerprint this side computes for that Noob, over everything else it has recorded. */
  function Expected(l: Lib, dir: int, i: MacInputs, noob: Bytes): Hoob {
    ComputeHoob(l, dir, i.(noob := NoobText(l, noob)))
  }

  /** What recording a Noob changes: the Noob, its transcript entry and its NoobId. */
  predicate NoobTaken(l: Lib, m: Method, m': Method, noob: Bytes) {
    && m'.noob == noob && m'.ins == m.ins.(noob := NoobText(l, noob)) && m'.noobId.Some?
    && m'.(noob := m.noob, ins := m.ins, noobId := m.noobId) == m
  }

  /**
   * Input at the server: refused without a trace unless it waits in that direction and the message is
   * for it; otherwise the Noob is recorded, and only a matching fingerprint is accepted.
   */
  lemma ServerInputMeans(l: Lib, s: ServerState, msg: OobMessage)
    ensures var (s', ok) := ServerOobInput(l, s, msg);
            if !Awaits(s.state, s.dirp, 1) || !Names(s.m, msg) || !CarriesNoob(l, msg) then s' == s && !ok
            else
              var noob := l.unb64(msg.noob).value;
              && (ok <==> msg.hoob == Expected(l, 1, s.m.ins, noob))
              && NoobTaken(l, s.m, s'.m, noob)
              && s' == s.(m := s'.m, state := if ok then OOB_RECEIVED else WAITING)
  {
  }

  /** The same at the peer, which also takes a Noob of 16 bytes without a message around it. */
  lemma PeerInputMeans(l: Lib, p: PeerState, msg: OobMessage)
    ensures var (p', ok) := PeerOobInput(l, p, msg);
            if !Awaits(p.state, p.dirp, 2) || !Names(p.m, msg) || !CarriesNoob(l, msg) then p' == p && !ok
            else
              var noob := l.unb64(msg.noob).value;
              && (ok <==> msg.hoob == Expected(l, 2, p.m.ins, noob))
              && NoobTaken(l, p.m, p'.m, noob)
              && p' == p.(m := p'.m, state := if ok then OOB_RECEIVED else WAITING)
    ensures forall noob ::
              var (p', ok) := PeerOobInputNoob(l, p, noob);
              && (ok <==> Awaits(p.state, p.dirp, 2) && |noob| == 16)
              && (ok ==> NoobTaken(l, p.m, p'.m, noob) && p' == p.(m := p'.m, state := OOB_RECEIVED))
              && (!ok ==> p' == p)
  {
  }

  /** Output: a message under the PeerId, with the Noob it records, exactly while waiting in that direction. */
  lemma OutputMeans(l: Lib, s: ServerState, p: PeerState, noob: Bytes)
    ensures var (s', msg) := ServerOobOutput(l, s, noob);
            if !Awaits(s.state, s.dirp, 2) || |noob| != 16 then s' == s && msg.None?
            else msg == Some(OobMessage(s.m.peerId, l.b64(noob), Expected(l, 2, s.m.ins, noob)))
                 && NoobTaken(l, s.m, s'.m, noob) && s' == s.(m := s'.m)
    ensures var (p', msg) := PeerOobOutput(l, p, noob);
            if !Awaits(p.state, p.dirp, 1) || |noob| != 16 then p' == p && msg.None?
            else msg == Some(OobMessage(p.m.peerId, l.b64(noob), Expected(l, 1, p.m.ins, noob)))
                 && NoobTaken(l, p.m, p'.m, noob) && p' == p.(m := p'.m)
  {
  }

  // ---- What an accepted fingerprint vouches for ----

  /** The transcript of the Initial Exchange. */
  function Initial(i: MacInputs): MacInputs {
    i.(noob := "")
  }

  lemma HoobsAgree(u: Setup, dir: int, s: Method, p: Method, noob: Bytes)
    requires SetupOk(u) && |noob| == 16
    requires ServerFields(u.l, s) && s.suite.Some? && s.z.Some? && PeerFields(u.l, p) && p.suite.Some? && p.z.Some?
    ensures Expected(u.l, dir, s.ins, noob) == Expected(u.l, dir, p.ins, noob) <==> Initial(s.ins) == Initial(p.ins)
  {
    var t := NoobText(u.l, noob);
    if Expected(u.l, dir, s.ins, noob) == Expected(u.l, dir, p.ins, noob) {
      var text := u.l.b64(noob);
      assert u.l.valid(u.l.rawStr(text));
      SameInputs(u.l, dir, s.ins.(noob := t), p.ins.(noob := t));
      assert Initial(s.ins) == Initial(s.ins.(noob := t));
      assert Initial(p.ins) == Initial(p.ins.(noob := t));
    } else {
      assert Initial(s.ins).(noob := t) == s.ins.(noob := t);
      assert Initial(p.ins).(noob := t) == p.ins.(noob := t);
    }
  }

  /**
   * For any two moments a network can bring about, one at which the peer hands out a Noob and one at
   * which the server is given it: the server accepts exactly if it waits in that direction under that
   * PeerId and both transcripts of the Initial Exchange are the same in all fourteen fields.
   */
  lemma ServerBelievesExactlyWhen(u: Setup, given: seq<Action>, taken: seq<Action>, noob: Bytes)
    requires SetupOk(u) && Admissible(u, given) && Admissible(u, taken)
    ensures var (p, s) := (Exec(u, given).pr, Exec(u, taken).sv);
            var msg := PeerOobOutput(u.l, p, noob).1;
            msg.Some? ==>
              (ServerOobInput(u.l, s, msg.value).1 <==>
                 && Awaits(s.state, s.dirp, 1) && Names(s.m, msg.value) && Initial(s.m.ins) == Initial(p.m.ins))
  {
    RunSound(u, given);
    RunSound(u, taken);
    var (p, s) := (Exec(u, given).pr, Exec(u, taken).sv);
    OutputMeans(u.l, s, p, noob);
    var msg := PeerOobOutput(u.l, p, noob).1;
    if msg.Some? {
      ServerInputMeans(u.l, s, msg.value);
      assert u.l.unb64(u.l.b64(noob)) == Some(noob);
      if s.state == WAITING { HoobsAgree(u, 1, s.m, p.m, noob); }
    }
  }

  /** And the other way round. */
  lemma PeerBelievesExactlyWhen(u: Setup, given: seq<Action>, taken: seq<Action>, noob: Bytes)
    requires SetupOk(u) && Admissible(u, given) && Admissible(u, taken)
    ensures var (s, p) := (Exec(u, given).sv, Exec(u, taken).pr);
            var msg := ServerOobOutput(u.l, s, noob).1;
            msg.Some? ==>
              (PeerOobInput(u.l, p, msg.value).1 <==>
                 && Awaits(p.state, p.dirp, 2) && Names(p.m, msg.value) && Initial(s.m.ins) == Initial(p.m.ins))
  {
    RunSound(u, given);
    RunSound(u, taken);
    var (s, p) := (Exec(u, given).sv, Exec(u, taken).pr);
    OutputMeans(u.l, s, p, noob);
    var msg := ServerOobOutput(u.l, s, noob).1;
    if msg.Some? {
      PeerInputMeans(u.l, p, msg.value);
      assert u.l.unb64(u.l.b64(noob)) == Some(noob);
      if p.state == WAITING { HoobsAgree(u, 2, s.m, p.m, noob); }
    }
  }
}
