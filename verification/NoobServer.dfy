/** The EAP server role (services/eap-noob/server.go). */
module NoobServer {
  import opened Options
  import opened Kdf
  import opened Noob

  class Server {
    const lib: Lib
    const cfg: ServerConfig
    var state: int
    var peerState: int
    var verp: int
    var csp: int
    var dirp: int
    var m: Method

    ghost function View(): ServerState
      reads this
    {
      ServerState(state, peerState, verp, csp, dirp, m)
    }

    constructor (lib: Lib, cfg: ServerConfig)
      ensures this.lib == lib && this.cfg == ServerDefaults(cfg) && View() == NEW_SERVER
    {
      this.lib := lib;
      this.cfg := ServerDefaults(cfg);
      state, peerState, verp, csp, dirp, m := UNREGISTERED, 0, 0, 0, 0, NEW_METHOD;
    }

    method Fail(code: int) returns (out: Outcome)
      ensures (View(), out) == ServerFail(View(), code)
    {
      out := Failed(code, state);
    }

    method Receive(w: Wire, f: Fresh) returns (out: Outcome)
      modifies this
      ensures (View(), out) == ServerReceive(lib, cfg, old(View()), w, f)
    {
      if w.Malformed? {
        out := Fail(ERR_STRUCTURE);
        return;
      }
      if w.error.Some? {
        return Outcome(None, state, true, false, w.error);
      }
      if w.typ.None? {
        out := Fail(ERR_STRUCTURE);
        return;
      }
      match w.typ.value {
        case 1 => out := ReceiveDiscovery(w, f);
        case 2 => out := ReceiveNegotiation(w, f);
        case 3 => out := ReceiveKeyExchange(w);
        case 4 =>
          if !PeerIdMatches(lib, m, w) {
            out := Fail(ERR_PEER_ID);
          } else {
            out := Outcome(Some(Result(EAP_FAILURE)), state, true, false, None);
          }
        case 5 => out := ReceiveNoobId(w);
        case 6 => out := ReceiveCompletion(w, f);
        case _ => out := Fail(ERR_TYPE);
      }
    }

    method ReceiveDiscovery(w: Wire, f: Fresh) returns (out: Outcome)
      requires w.Wire?
      modifies this
      ensures (View(), out) == OnDiscovery(lib, cfg, old(View()), w, f)
    {
      if w.peerState.None? {
        out := Fail(ERR_DATA);
        return;
      }
      peerState := w.peerState.value;
      if w.nai != "" && lib.toStr(w.nai).Some? {
        m := m.(nai := lib.toStr(w.nai).value);
      }
      if m.nai == "" {
        m := m.(nai := DEFAULT_NAI);
      }
      if (state == 2 && (peerState == 1 || peerState == 2)) || (peerState == 2 && (state == 1 || state == 2)) {
        out := BeginCompletion(w);
      } else if state == 1 && peerState == 1 {
        out := Sent(EMPTY.(typ := Some(4), peerId := lib.rawStr(m.peerId)), state);
      } else if state == 0 || peerState == 0 {
        out := BuildNegotiationRequest(f);
      } else {
        out := Fail(ERR_STATE);
      }
    }

    method BuildNegotiationRequest(f: Fresh) returns (out: Outcome)
      modifies this
      ensures (View(), out) == NegotiationRequest(lib, cfg, old(View()), f)
    {
      m := m.(peerId := f.peerId);
      var id := lib.rawStr(f.peerId);
      var w := EMPTY.(typ := Some(2), vers := lib.rawInts(cfg.versions), peerId := id,
                      suites := lib.rawInts(cfg.suites),
                          dirs := lib.rawInt(cfg.dirs), serverInfo := InfoText(cfg.info));
      if cfg.newNai != "" {
        w := w.(newNai := lib.rawStr(cfg.newNai));
        m := m.(nai := cfg.newNai);
      }
      m := m.(ins :=
              m.ins.(vers := w.vers, peerId := id, suites := w.suites, dirs := w.dirs, serverInfo := w.serverInfo));
      out := Sent(w, state);
    }

    method ReceiveNegotiation(w: Wire, f: Fresh) returns (out: Outcome)
      requires w.Wire?
      modifies this
      ensures (View(), out) == OnNegotiation(lib, cfg, old(View()), w, f)
    {
      if !PeerIdMatches(lib, m, w) {
        out := Fail(ERR_PEER_ID);
        return;
      }
      var v, c, d := lib.toInt(w.verp), lib.toInt(w.suitep), lib.toInt(w.dirp);
      if v.None? {
        out := Fail(ERR_DATA);
        return;
      }
      if v.value !in cfg.versions {
        out := Fail(ERR_VERSION);
        return;
      }
      if c.None? {
        out := Fail(ERR_DATA);
        return;
      }
      if c.value !in cfg.suites || !SupportedSuite(c.value) {
        out := Fail(ERR_SUITE);
        return;
      }
      if d.None? {
        out := Fail(ERR_DATA);
        return;
      }
      if !(1 <= d.value <= 3) || !SharesDirection(d.value, cfg.dirs) {
        out := Fail(ERR_DIRECTION);
        return;
      }
      m := m.(suite := Some(c.value));
      verp, csp, dirp := v.value, c.value, d.value;
      m := m.(ins := m.ins.(verp := w.verp, suitep := w.suitep, dirp := w.dirp, peerInfo := InfoText(w.peerInfo),
                            nai := lib.rawStr(m.nai)));
      // buildKeyExchangeRequest
      m := m.(priv := Some(f.priv), ns := f.nonce);
      m := m.(ins := m.ins.(pks := lib.jwk(csp, f.priv), ns := lib.rawStr(lib.b64(f.nonce))));
      out := Sent(EMPTY.(typ := Some(3), peerId := lib.rawStr(m.peerId), pks := m.ins.pks, ns := m.ins.ns), state);
    }

    method ReceiveKeyExchange(w: Wire) returns (out: Outcome)
      requires w.Wire?
      modifies this
      ensures (View(), out) == OnKeyExchange(lib, old(View()), w)
    {
      if state != UNREGISTERED || m.suite.None? || m.priv.None? {
        out := Fail(ERR_STATE);
        return;
      }
      if !PeerIdMatches(lib, m, w) {
        out := Fail(ERR_PEER_ID);
        return;
      }
      var z := lib.dh(m.suite.value, m.priv.value, w.pkp);
      if z.None? {
        out := Fail(ERR_DATA);
        return;
      }
      var np := NonceOf(lib, w.np);
      if np.None? {
        out := Fail(ERR_DATA);
        return;
      }
      m := m.(z := z, np := np.value);
      m := m.(ins := m.ins.(pkp := w.pkp, np := w.np));
      state := WAITING;
      out := Outcome(Some(Result(EAP_FAILURE)), state, true, false, None);
    }

    method BeginCompletion(w: Wire) returns (out: Outcome)
      requires w.Wire?
      modifies this
      ensures (View(), out) == StartCompletion(lib, old(View()), w)
    {
      if !PeerIdMatches(lib, m, w) {
        out := Fail(ERR_PEER_ID);
        return;
      }
      if m.noob == [] {
        out := Fail(ERR_STATE);
        return;
      }
      if peerState == 2 {
        out := Sent(EMPTY.(typ := Some(5), peerId := lib.rawStr(m.peerId)), state);
        return;
      }
      out := BuildCompletionRequest();
    }

    method ReceiveNoobId(w: Wire) returns (out: Outcome)
      requires w.Wire?
      modifies this
      ensures (View(), out) == OnNoobId(lib, old(View()), w)
    {
      if !PeerIdMatches(lib, m, w) {
        out := Fail(ERR_PEER_ID);
        return;
      }
      if w.noobId.None? {
        out := Fail(ERR_DATA);
        return;
      }
      if w.noobId != m.noobId {
        out := Fail(ERR_OOB_ID);
        return;
      }
      out := BuildCompletionRequest();
    }

    method BuildCompletionRequest() returns (out: Outcome)
      modifies this
      ensures (View(), out) == CompletionRequest(lib, old(View()))
    {
      m := DeriveKeys(m);
      var macs := ServerTag(lib, m.material.value, m.ins);
      out := Sent(EMPTY.(typ := Some(6), peerId := lib.rawStr(m.peerId), noobId := m.noobId, macs := Some(macs)),
                  state);
    }

    method ReceiveCompletion(w: Wire, f: Fresh) returns (out: Outcome)
      requires w.Wire?
      modifies this
      ensures (View(), out) == OnCompletion(lib, old(View()), w, f)
    {
      if (state != WAITING && state != OOB_RECEIVED) || m.suite.None? || m.material.None? {
        out := Fail(ERR_STATE);
        return;
      }
      if !PeerIdMatches(lib, m, w) {
        out := Fail(ERR_PEER_ID);
        return;
      }
      if w.macp.None? {
        out := Fail(ERR_DATA);
        return;
      }
      var expected := PeerTag(lib, m.material.value, m.ins);
      if w.macp.value != expected {
        out := Fail(ERR_HMAC);
        return;
      }
      var assoc := Association(m.peerId, m.nai, csp, Key(Kz, m.material.value));
      if !f.saved {
        return Fault;
      }
      m := m.(registered := Some(assoc));
      state := REGISTERED;
      out := Outcome(Some(Result(EAP_SUCCESS)), state, true, true, None);
    }

    method OobOut(noob: Bytes) returns (msg: Option<OobMessage>)
      modifies this
      ensures (View(), msg) == ServerOobOutput(lib, old(View()), noob)
    {
      if state != WAITING || (dirp != 2 && dirp != 3) || |noob| != 16 {
        return None;
      }
      m := SetNoob(lib, m, noob);
      msg := Some(OobMessage(m.peerId, lib.b64(noob), ComputeHoob(lib, 2, m.ins)));
    }

    method OobIn(msg: OobMessage) returns (ok: bool)
      modifies this
      ensures (View(), ok) == ServerOobInput(lib, old(View()), msg)
    {
      if state != WAITING || (dirp != 1 && dirp != 3) || (m.peerId != "" && msg.peerId != m.peerId) {
        return false;
      }
      var noob := lib.unb64(msg.noob);
      if noob.None? || |noob.value| != 16 {
        return false;
      }
      m := SetNoob(lib, m, noob.value);
      if ComputeHoob(lib, 1, m.ins) != msg.hoob {
        return false;
      }
      state := OOB_RECEIVED;
      return true;
    }
  }
}
