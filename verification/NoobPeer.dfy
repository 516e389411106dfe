/** The EAP peer role (services/eap-noob/peer.go). */
module NoobPeer {
  import opened Options
  import opened Kdf
  import opened Noob

  class Peer {
    const lib: Lib
    const cfg: PeerConfig
    var state: int
    var verified: bool
    var verp: int
    var csp: int
    var dirp: int
    var m: Method

    ghost function View(): PeerState
      reads this
    {
      PeerState(state, verified, verp, csp, dirp, m)
    }

    constructor (lib: Lib, cfg: PeerConfig)
      ensures this.lib == lib && this.cfg == PeerDefaults(cfg) && View() == NewPeer(this.cfg)
    {
      this.lib := lib;
      this.cfg := PeerDefaults(cfg);
      state, verified, verp, csp, dirp := UNREGISTERED, false, 0, 0, 0;
      m := NEW_METHOD.(nai := PeerDefaults(cfg).nai);
    }

    method Fail(code: int) returns (out: Outcome)
      ensures (View(), out) == PeerFail(View(), code)
    {
      out := Failed(code, state);
    }

    method Receive(w: Wire, f: Fresh) returns (out: Outcome)
      modifies this
      ensures (View(), out) == PeerReceive(lib, cfg, old(View()), w, f)
    {
      if w.Malformed? {
        verified := false;
        out := Fail(ERR_STRUCTURE);
        return;
      }
      if w.eap != "" {
        out := ReceiveResult(w, f);
        return;
      }
      verified := false;
      if w.error.Some? {
        return Outcome(None, state, true, false, w.error);
      }
      if w.typ.None? {
        out := Fail(ERR_STRUCTURE);
        return;
      }
      match w.typ.value {
        case 1 =>
          var r := EMPTY.(typ := Some(1), peerState := Some(state), nai := lib.rawStr(m.nai));
          if state != UNREGISTERED && m.peerId != "" {
            r := r.(peerId := lib.rawStr(m.peerId));
          }
          out := Sent(r, state);
        case 2 => out := ReceiveNegotiation(w);
        case 3 => out := ReceiveKeyExchange(w, f);
        case 4 => out := Sent(EMPTY.(typ := Some(4), peerId := lib.rawStr(m.peerId)), state);
        case 5 =>
          if m.noobId.None? {
            out := Fail(ERR_STATE);
          } else {
            out := Sent(EMPTY.(typ := Some(5), peerId := lib.rawStr(m.peerId), noobId := m.noobId), state);
          }
        case 6 => out := ReceiveCompletion(w);
        case _ => out := Fail(ERR_TYPE);
      }
    }

    method ReceiveResult(w: Wire, f: Fresh) returns (out: Outcome)
      requires w.Wire?
      modifies this
      ensures (View(), out) == OnResult(old(View()), w, f)
    {
      var wasVerified := verified;
      verified := false;
      if w.eap == EAP_SUCCESS {
        if !wasVerified {
          out := Fail(ERR_STATE);
          return;
        }
        var kz := Key(Kz, if m.material.Some? then m.material.value else []);
        if !f.saved {
          return Fault;
        }
        m := m.(registered := Some(Association(m.peerId, m.nai, csp, kz)));
        state := REGISTERED;
        return Outcome(None, state, true, true, None);
      }
      out := Outcome(None, state, true, false, None);
    }

    method ReceiveNegotiation(w: Wire) returns (out: Outcome)
      requires w.Wire?
      modifies this
      ensures (View(), out) == OnNegotiationRequest(lib, cfg, old(View()), w)
    {
      var id := lib.toStr(w.peerId);
      if id.None? {
        out := Fail(ERR_DATA);
        return;
      }
      m := m.(peerId := id.value);
      var vers := lib.toInts(w.vers);
      if vers.None? {
        out := Fail(ERR_DATA);
        return;
      }
      var v, ok := BestVersionLoop(vers.value, cfg.versions);
      if !ok {
        out := Fail(ERR_VERSION);
        return;
      }
      var suites := lib.toInts(w.suites);
      if suites.None? {
        out := Fail(ERR_DATA);
        return;
      }
      var c, found := FirstSupportedLoop(suites.value, cfg.suites);
      if !found {
        out := Fail(ERR_SUITE);
        return;
      }
      var dirs := lib.toInt(w.dirs);
      if dirs.None? {
        out := Fail(ERR_DATA);
        return;
      }
      var d := ChooseDir(dirs.value, cfg.preferDir);
      if d.None? {
        out := Fail(ERR_DIRECTION);
        return;
      }
      m := m.(suite := Some(c));
      verp, csp, dirp := v, c, d.value;
      if w.newNai != "" && lib.toStr(w.newNai).Some? {
        m := m.(nai := lib.toStr(w.newNai).value);
      }
      m := m.(ins := m.ins.(vers := w.vers, peerId := w.peerId, suites := w.suites, dirs := w.dirs,
                            serverInfo := InfoText(w.serverInfo)));
      m := m.(ins := m.ins.(verp := lib.rawInt(v), suitep := lib.rawInt(c), dirp := lib.rawInt(dirp),
                            peerInfo := InfoText(cfg.info), nai := lib.rawStr(m.nai)));
      out := Sent(EMPTY.(typ := Some(2), verp := m.ins.verp, peerId := lib.rawStr(m.peerId), suitep := m.ins.suitep,
                             dirp := m.ins.dirp, peerInfo := m.ins.peerInfo), state);
    }

    method ReceiveKeyExchange(w: Wire, f: Fresh) returns (out: Outcome)
      requires w.Wire?
      modifies this
      ensures (View(), out) == OnKeyExchangeRequest(lib, old(View()), w, f)
    {
      if state != UNREGISTERED || m.suite.None? {
        out := Fail(ERR_STATE);
        return;
      }
      var ns := NonceOf(lib, w.ns);
      if ns.None? {
        out := Fail(ERR_DATA);
        return;
      }
      var z := lib.dh(m.suite.value, f.priv, w.pks);
      if z.None? {
        out := Fail(ERR_DATA);
        return;
      }
      var pkp, np := lib.jwk(m.suite.value, f.priv), lib.rawStr(lib.b64(f.nonce));
      m := m.(priv := Some(f.priv), z := z, ns := ns.value, np := f.nonce);
      m := m.(ins := m.ins.(pks := w.pks, ns := w.ns, pkp := pkp, np := np));
      state := WAITING;
      out := Sent(EMPTY.(typ := Some(3), peerId := lib.rawStr(m.peerId), pkp := pkp, np := np), state);
    }

    method ReceiveCompletion(w: Wire) returns (out: Outcome)
      requires w.Wire?
      modifies this
      ensures (View(), out) == OnCompletionRequest(lib, old(View()), w)
    {
      if m.noob == [] {
        out := Fail(ERR_STATE);
        return;
      }
      if w.noobId.None? {
        out := Fail(ERR_DATA);
        return;
      }
      if w.noobId != m.noobId {
        out := Fail(ERR_OOB_ID);
        return;
      }
      if w.macs.None? {
        out := Fail(ERR_DATA);
        return;
      }
      m := DeriveKeys(m);
      if w.macs.value != ServerTag(lib, m.material.value, m.ins) {
        out := Fail(ERR_HMAC);
        return;
      }
      var macp := PeerTag(lib, m.material.value, m.ins);
      verified := true;
      out := Sent(EMPTY.(typ := Some(6), peerId := lib.rawStr(m.peerId), macp := Some(macp)), state);
    }

    method OobOut(noob: Bytes) returns (msg: Option<OobMessage>)
      modifies this
      ensures (View(), msg) == PeerOobOutput(lib, old(View()), noob)
    {
      if state != WAITING || (dirp != 1 && dirp != 3) || |noob| != 16 {
        return None;
      }
      m := SetNoob(lib, m, noob);
      msg := Some(OobMessage(m.peerId, lib.b64(noob), ComputeHoob(lib, 1, m.ins)));
    }

    method OobIn(msg: OobMessage) returns (ok: bool)
      modifies this
      ensures (View(), ok) == PeerOobInput(lib, old(View()), msg)
    {
      if state != WAITING || (dirp != 2 && dirp != 3) || (m.peerId != "" && msg.peerId != m.peerId) {
        return false;
      }
      var noob := lib.unb64(msg.noob);
      if noob.None? || |noob.value| != 16 {
        return false;
      }
      m := SetNoob(lib, m, noob.value);
      if ComputeHoob(lib, 2, m.ins) != msg.hoob {
        return false;
      }
      state := OOB_RECEIVED;
      return true;
    }

    method OobInNoob(noob: Bytes) returns (ok: bool)
      modifies this
      ensures (View(), ok) == PeerOobInputNoob(lib, old(View()), noob)
    {
      if state != WAITING || (dirp != 2 && dirp != 3) || |noob| != 16 {
        return false;
      }
      m := SetNoob(lib, m, noob);
      state := OOB_RECEIVED;
      return true;
    }
  }
}
