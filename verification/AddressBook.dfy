/**
 * The address book as the manager edits it in place, each method proved against the
 * function of Addresses.dfy that specifies it, and what a dial reservation leaves
 * when it cannot be written to disk.
 */
module AddressBook {
  import opened Options
  import opened Addresses
  import opened AddressFairness
  import opened AddressRuns

  /** sort.SliceStable by most recent success. */
  method StableSort(s: seq<Candidate>) returns (r: seq<Candidate>)
    ensures r == Sort(s)
  {
    r := [];
    for i := 0 to |s|
      invariant r == Sort(s[..i])
    {
      assert s[..i + 1][..i] == s[..i];
      var head, tail := r, [];
      while head != [] && head[|head| - 1].lastSuccess < s[i].lastSuccess
        invariant Insert(s[i], r) == Insert(s[i], head) + tail && head + tail == r
        decreases |head|
      {
        ghost var h := head;
        tail := [head[|head| - 1]] + tail;
        head := head[..|head| - 1];
        assert Insert(s[i], h) == Insert(s[i], head) + [h[|h| - 1]];
      }
      r := head + [s[i]] + tail;
    }
    assert s[..|s|] == s;
  }

  class MemberBook {
    var display: string
    var pairing: string
    var candidates: seq<Candidate>
    var nextProbe: int

    ghost function V(): Book
      reads this
    {
      Book(display, pairing, candidates, nextProbe)
    }

    constructor (display: string)
      ensures V() == Book(display, "", [], 0)
    {
      this.display, pairing, candidates, nextProbe := display, "", [], 0;
    }

    /** The loop over stored candidates, with the addresses already seen. */
    static method KeepClean(canon: Canon, cs: seq<Candidate>, now: int) returns (kept: seq<Candidate>)
      ensures kept == Clean(canon, cs, now)
    {
      kept := [];
      var seen: set<string> := {};
      for i := 0 to |cs|
        invariant kept == Clean(canon, cs[..i], now)
        invariant forall a :: a in seen <==> Holds(kept, a)
      {
        assert cs[..i + 1][..i] == cs[..i];
        var a := canon(cs[i].address, true);
        if a.Some? && a.value !in seen && Fresh(cs[i], now) {
          var before := kept;
          seen := seen + {a.value};
          kept := kept + [Clamp(cs[i], a.value, now)];
          assert kept[|before|].address == a.value;
          assert forall x :: Holds(kept, x) <==> Holds(before, x) || x == a.value by {
            HoldsAppend(before, Clamp(cs[i], a.value, now));
          }
        }
      }
      assert cs[..|cs|] == cs;
    }

    static lemma HoldsAppend(cs: seq<Candidate>, c: Candidate)
      ensures forall x :: Holds(cs + [c], x) <==> Holds(cs, x) || x == c.address
    {
      forall x ensures Holds(cs + [c], x) <==> Holds(cs, x) || x == c.address {
        if Holds(cs, x) {
          var k :| 0 <= k < |cs| && cs[k].address == x;
          assert (cs + [c])[k] == cs[k];
        }
        if x == c.address { assert (cs + [c])[|cs|] == c; }
      }
    }

    /** normalizeMemberAddresses. */
    method NormalizeAt(canon: Canon, now: int)
      modifies this
      ensures V() == Normalize(canon, old(V()), now)
    {
      if pairing == "" && candidates == [] {
        pairing := display;
      }
      var p := canon(pairing, true);
      pairing := if p.Some? then p.value else "";
      var kept := KeepClean(canon, candidates, now);
      kept := StableSort(kept);
      candidates := if |kept| > MAX_HINTS then kept[..MAX_HINTS] else kept;
      if display != pairing && !Proven(candidates, display) {
        display := if candidates != [] && candidates[0].lastSuccess > 0 then candidates[0].address else pairing;
      }
      nextProbe := Min(nextProbe, now + INTERVAL);
    }

    /** The `add` closure of learnPeerAddressesLocked. */
    method Add(address: string, success: bool, now: int)
      modifies this`candidates, this`display
      ensures V() == if success then Succeed(old(V()), address, now) else Report(old(V()), address, now)
    {
      if address == pairing && !success { return; }
      var i := IndexOf(candidates, address);
      if i < |candidates| {
        if !success {
          assert Holds(candidates, candidates[i].address);
          return;
        }
        candidates := [candidates[i].(lastSuccess := now)] + (candidates[..i] + candidates[i + 1..]);
      } else {
        assert !Holds(candidates, address);
        var c := Candidate(address, now, 0, 0);
        if success {
          candidates := [c.(lastSuccess := now)] + candidates;
        } else if |candidates| < MAX_HINTS {
          candidates := candidates + [c];
          return;
        } else {
          return;
        }
      }
      candidates := if |candidates| > MAX_HINTS then candidates[..MAX_HINTS] else candidates;
      display := address;
    }

    /** learnPeerAddressesLocked once the pin and the admission have been rechecked. */
    method LearnFrom(canon: Canon, observed: string, success: string, reports: seq<string>, now: int)
      modifies this
      ensures V() == Learn(canon, old(V()), observed, success, reports, now)
    {
      NormalizeAt(canon, now);
      var o := canon(observed, true);
      if o.Some? { Add(o.value, true, now); }
      var s := canon(success, true);
      if s.Some? { Add(s.value, true, now); }
      var claims := if |reports| <= MAX_ADDRESSES then reports else reports[..MAX_ADDRESSES];
      ghost var b := V();
      for i := 0 to |claims|
        invariant V() == Reports(canon, b, claims[..i], now)
      {
        assert claims[..i + 1][..i] == claims[..i];
        var a := canon(claims[i], false);
        if a.Some? { Add(a.value, false, now); }
      }
      assert claims[..|claims|] == claims;
    }

    /** The oldest offered hint, by a loop that keeps the first of equals. */
    method FindProbe(addrs: seq<string>) returns (probe: Option<nat>)
      ensures probe == Oldest(candidates, addrs)
    {
      var oldest := MAX_INT64;
      probe := None;
      for i := 0 to |candidates|
        invariant probe == Oldest(candidates[..i], addrs)
        invariant probe.Some? ==> probe.value < i && oldest == candidates[probe.value].lastAttempt < MAX_INT64
        invariant probe.None? ==> oldest == MAX_INT64
      {
        assert candidates[..i + 1][..i] == candidates[..i];
        var c := candidates[i];
        if c.lastSuccess == 0 && c.address in addrs && c.lastAttempt < oldest {
          probe, oldest := Some(i), c.lastAttempt;
        }
      }
      assert candidates[..|candidates|] == candidates;
    }

    /** The last loop of limitCandidateDials. */
    method Dialable(probe: Option<nat>, addrs: seq<string>) returns (out: seq<string>)
      ensures out == Filter(V(), probe, addrs)
    {
      out := [];
      for i := 0 to |addrs|
        invariant out == Filter(V(), probe, addrs[..i])
      {
        assert addrs[..i + 1][..i] == addrs[..i];
        if Allowed(Book(display, pairing, candidates, nextProbe), probe, addrs[i]) && addrs[i] !in out
           && |out| < MAX_ADDRESSES
        {
          out := out + [addrs[i]];
        }
      }
      assert addrs[..|addrs|] == addrs;
    }

    /** limitCandidateDials. */
    method LimitDials(canon: Canon, addrs: seq<string>, now: int) returns (out: seq<string>, reserved: bool)
      modifies this
      ensures var l := Limit(canon, old(V()), addrs, now); V() == l.0 && out == l.1 && reserved == l.2.Some?
    {
      NormalizeAt(canon, now);
      var probe := None;
      if now >= nextProbe {
        probe := FindProbe(addrs);
      }
      OldestIsOldest(candidates, addrs);
      out := Dialable(probe, addrs);
      reserved := probe.Some?;
      if reserved {
        nextProbe := now + INTERVAL;
        candidates := candidates[probe.value := candidates[probe.value].(lastAttempt := now)];
      }
    }

    /** reservePeerDialCandidates: a reservation that cannot be persisted is filtered out again. */
    method ReserveDials(canon: Canon, addrs: seq<string>, now: int, later: int, persisted: bool)
      returns (out: seq<string>)
      modifies this
      ensures var l := Limit(canon, old(V()), addrs, now);
              if l.2.Some? && !persisted
                then V() == Limit(canon, l.0, l.1, later).0 && out == Limit(canon, l.0, l.1, later).1
              else V() == l.0 && out == l.1
    {
      var reserved;
      out, reserved := LimitDials(canon, addrs, now);
      if reserved && !persisted {
        out, reserved := LimitDials(canon, out, later);
      }
    }
  }

  /**
   * When a reservation cannot be written, the second filter run within the 30 seconds lets no
   * unproven endpoint through, and keeps every proven endpoint and the pairing fallback.
   */
  lemma UnpersistedHintIsNotDialled(canon: Canon, b: Book, addrs: seq<string>, now: int, later: int)
    requires CanonLaws(canon) && now <= later < now + INTERVAL && Limit(canon, b, addrs, now).2.Some?
    ensures var l := Limit(canon, b, addrs, now);
            var (b2, out, p) := Limit(canon, l.0, l.1, later);
            && p.None?
            && (forall a | a in out :: a in l.1 && (Proven(b2.candidates, a) || a == b2.pairing))
            && (forall a | a in l.1 && (Proven(b2.candidates, a) || a == b2.pairing) :: a in out)
  {
    var l := Limit(canon, b, addrs, now);
    assert l.0.nextProbe == now + INTERVAL;
    var n := Normalize(canon, l.0, later);
    assert n.nextProbe == now + INTERVAL && Probe(n, l.1, later) == None;
    NormalizeTidies(canon, l.0, later);
    FilterSound(n, None, l.1);
    FilterComplete(n, None, l.1);
  }
}
