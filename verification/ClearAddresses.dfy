/**
 * Addresses left in the clear: link does not register them, but it does look them up,
 * so one that was registered as a hostname or UUID can tie groups together. Whether
 * it does is read off the owners before the call, exactly.
 */
module ClearAddresses {
  import opened Grouping

  // ---- Same groups ----

  ghost predicate Together(s: State, x: string, y: string) {
    x in s.owner && y in s.owner && s.owner[x] == s.owner[y]
  }

  /** The same identifiers share a group. */
  ghost predicate SameGroups(s: State, s': State) {
    forall x, y :: Together(s, x, y) <==> Together(s', x, y)
  }

  // ---- A call without them ----

  function Unkept(keep: string -> bool, ips: seq<string>): seq<string> {
    if ips == [] then []
    else
      var u := Unkept(keep, ips[..|ips| - 1]);
      if keep(ips[|ips| - 1]) then u else u + [ips[|ips| - 1]]
  }

  /** The call with its kept addresses removed. */
  function Bare(keep: string -> bool, c: Call): Call {
    c.(ips := Unkept(keep, c.ips))
  }

  lemma {:induction false} UnkeptHas(keep: string -> bool, ips: seq<string>, ip: string)
    ensures ip in Unkept(keep, ips) <==> ip in ips && !keep(ip)
  {
    if ips != [] {
      var init, last := ips[..|ips| - 1], ips[|ips| - 1];
      UnkeptHas(keep, init, ip);
      assert ips == init + [last];
    }
  }

  /** It registers the same identifiers, and looks up those alone. */
  lemma BareIsOwn(keep: string -> bool, c: Call)
    ensures OwnIds(keep, Bare(keep, c)) == OwnIds(keep, c)
    ensures forall m :: m in Members(Bare(keep, c)) <==> m in OwnIds(keep, c)
    ensures forall m :: m in Members(c) <==> m in OwnIds(keep, c) || (m in c.ips && keep(m))
  {
    forall ip ensures ip in Unkept(keep, c.ips) <==> ip in c.ips && !keep(ip) { UnkeptHas(keep, c.ips, ip); }
    assert OwnIps(keep, Bare(keep, c)) == OwnIps(keep, c);
  }

  // ---- The condition ----

  /** A kept address of the call that some group owns. */
  predicate OwnedKept(keep: string -> bool, s: State, c: Call, a: string) {
    a in c.ips && keep(a) && a in s.owner
  }

  /** Its group is one the call reaches anyway, through an identifier it registers. */
  predicate Reached(keep: string -> bool, s: State, c: Call, a: string)
    requires a in s.owner
  {
    exists o | o in OwnIds(keep, c) :: o in s.owner && s.owner[o] == s.owner[a]
  }

  /**
   * The kept addresses of the call change nothing: each has the owner of an identifier the call
   * registers, or, if it registers none, they all have one owner.
   */
  predicate Idle(keep: string -> bool, s: State, c: Call) {
    if OwnIds(keep, c) != {} then
      forall a | a in c.ips && OwnedKept(keep, s, c, a) :: Reached(keep, s, c, a)
    else
      forall a, b | a in c.ips && b in c.ips && OwnedKept(keep, s, c, a) && OwnedKept(keep, s, c, b) ::
        s.owner[a] == s.owner[b]
  }

  /** It shares the group of a kept address of the call. */
  predicate Tied(keep: string -> bool, s: State, c: Call, x: string) {
    x in s.owner && exists a | a in c.ips :: OwnedKept(keep, s, c, a) && s.owner[a] == s.owner[x]
  }

  lemma TouchedIs(s: State, members: seq<string>, x: string)
    ensures Touched(s, members, x)
        <==> x in s.owner && exists m | m in members :: m in s.owner && s.owner[m] == s.owner[x]
  {
    if x in s.owner {
      if m :| m in members && m in s.owner && s.owner[m] == s.owner[x] {
        var k :| 0 <= k < |members| && members[k] == m;
      }
    }
  }

  /** What a call draws together, with its kept addresses and without. */
  lemma DrawnParts(keep: string -> bool, s: State, c: Call, x: string)
    ensures Drawn(keep, s, c, x) <==> Drawn(keep, s, Bare(keep, c), x) || Tied(keep, s, c, x)
    ensures x in s.owner ==> (Drawn(keep, s, Bare(keep, c), x) <==> Reached(keep, s, c, x))
  {
    BareIsOwn(keep, c);
    TouchedIs(s, Members(c), x);
    TouchedIs(s, Members(Bare(keep, c)), x);
  }

  lemma TogetherAfter(keep: string -> bool, s: State, c: Call, x: string, y: string)
    requires Good(s) && Members(c) != []
    ensures var s' := Link(keep, s, c);
            Together(s', x, y) <==>
              && (x in s.owner || x in OwnIds(keep, c)) && (y in s.owner || y in OwnIds(keep, c))
              && ((Drawn(keep, s, c, x) && Drawn(keep, s, c, y))
                  || (!Drawn(keep, s, c, x) && !Drawn(keep, s, c, y) && s.owner[x] == s.owner[y]))
  {
    LinkOwner(keep, s, c, x);
    LinkOwner(keep, s, c, y);
  }

  // ---- When the call registers something ----

  lemma IdleDrawsTheSame(keep: string -> bool, s: State, c: Call, x: string)
    requires OwnIds(keep, c) != {} && Idle(keep, s, c)
    ensures Drawn(keep, s, c, x) <==> Drawn(keep, s, Bare(keep, c), x)
  {
    DrawnParts(keep, s, c, x);
  }

  lemma IdleCallIsBare(keep: string -> bool, s: State, c: Call)
    requires Good(s) && OwnIds(keep, c) != {} && Idle(keep, s, c)
    ensures SameGroups(Link(keep, s, c), Link(keep, s, Bare(keep, c)))
  {
    BareIsOwn(keep, c);
    var o :| o in OwnIds(keep, c);
    assert o in Members(c) && o in Members(Bare(keep, c));
    forall x, y ensures Together(Link(keep, s, c), x, y) <==> Together(Link(keep, s, Bare(keep, c)), x, y) {
      IdleDrawsTheSame(keep, s, c, x);
      IdleDrawsTheSame(keep, s, c, y);
      TogetherAfter(keep, s, c, x, y);
      TogetherAfter(keep, s, Bare(keep, c), x, y);
    }
  }

  lemma StrayAddressLinks(keep: string -> bool, s: State, c: Call, a: string)
    requires Good(s) && OwnIds(keep, c) != {} && OwnedKept(keep, s, c, a) && !Reached(keep, s, c, a)
    ensures !SameGroups(Link(keep, s, c), Link(keep, s, Bare(keep, c)))
  {
    BareIsOwn(keep, c);
    var o :| o in OwnIds(keep, c);
    assert o in Members(c) && o in Members(Bare(keep, c));
    DrawnParts(keep, s, c, a);
    TogetherAfter(keep, s, c, o, a);
    TogetherAfter(keep, s, Bare(keep, c), o, a);
    assert Together(Link(keep, s, c), o, a) && !Together(Link(keep, s, Bare(keep, c)), o, a);
  }

  // ---- When it registers nothing ----

  lemma SomeMember(members: seq<string>)
    ensures members != [] ==> exists m :: m in members
  {
    if members != [] { assert members[0] in members; }
  }

  lemma NothingRegistered(keep: string -> bool, s: State, c: Call, x: string, y: string)
    requires Good(s) && OwnIds(keep, c) == {}
    ensures Link(keep, s, Bare(keep, c)) == s
    ensures Members(c) != [] ==> (Drawn(keep, s, c, x) <==> Tied(keep, s, c, x))
  {
    BareIsOwn(keep, c);
    SomeMember(Members(Bare(keep, c)));
    TouchedIs(s, Members(c), x);
  }

  lemma LookupIsIdle(keep: string -> bool, s: State, c: Call)
    requires Good(s) && OwnIds(keep, c) == {} && Idle(keep, s, c)
    ensures SameGroups(Link(keep, s, c), Link(keep, s, Bare(keep, c)))
  {
    forall x, y ensures Together(Link(keep, s, c), x, y) <==> Together(Link(keep, s, Bare(keep, c)), x, y) {
      NothingRegistered(keep, s, c, x, y);
      NothingRegistered(keep, s, c, y, x);
      if Members(c) != [] { TogetherAfter(keep, s, c, x, y); }
    }
  }

  lemma LookupLinks(keep: string -> bool, s: State, c: Call, a: string, b: string)
    requires Good(s) && OwnIds(keep, c) == {} && OwnedKept(keep, s, c, a) && OwnedKept(keep, s, c, b)
    requires s.owner[a] != s.owner[b]
    ensures !SameGroups(Link(keep, s, c), Link(keep, s, Bare(keep, c)))
  {
    assert a in Members(c);
    NothingRegistered(keep, s, c, a, b);
    NothingRegistered(keep, s, c, b, a);
    TogetherAfter(keep, s, c, a, b);
    assert Together(Link(keep, s, c), a, b) && !Together(s, a, b);
  }

  /**
   * The addresses a call leaves in the clear tie nothing together, exactly when they are idle: for
   * every state and call, linking with them and without gives the same groups if and only if each
   * one some group owns is owned by a group the call reaches anyway.
   */
  lemma ClearAddressesAreIdleExactlyWhen(keep: string -> bool, s: State, c: Call)
    requires Good(s)
    ensures SameGroups(Link(keep, s, c), Link(keep, s, Bare(keep, c))) <==> Idle(keep, s, c)
  {
    if Idle(keep, s, c) {
      if OwnIds(keep, c) != {} { IdleCallIsBare(keep, s, c); } else { LookupIsIdle(keep, s, c); }
    } else if OwnIds(keep, c) != {} {
      var a :| a in c.ips && OwnedKept(keep, s, c, a) && !Reached(keep, s, c, a);
      StrayAddressLinks(keep, s, c, a);
    } else {
      var a, b :|
        a in c.ips && b in c.ips && OwnedKept(keep, s, c, a) && OwnedKept(keep, s, c, b) && s.owner[a] != s.owner[b];
      LookupLinks(keep, s, c, a, b);
    }
  }

  // ---- Over a run ----

  /** Chains of calls connect the same registered identifiers. */
  ghost predicate SameConnections(keep: string -> bool, calls: seq<Call>, calls': seq<Call>) {
    forall x, y | x in Known(keep, calls) && y in Known(keep, calls) ::
      Connected(keep, calls, x, y) <==> Connected(keep, calls', x, y)
  }

  lemma BareKnows(keep: string -> bool, calls: seq<Call>, c: Call)
    ensures Known(keep, calls + [Bare(keep, c)]) == Known(keep, calls + [c])
  {
    BareIsOwn(keep, c);
    assert (calls + [c])[..|calls|] == calls && (calls + [Bare(keep, c)])[..|calls|] == calls;
  }

  /** A chain of calls connects two registered identifiers exactly when they share a group. */
  lemma ConnectedIsTogether(keep: string -> bool, calls: seq<Call>, x: string, y: string)
    ensures Together(Run(keep, calls), x, y)
        <==> x in Known(keep, calls) && y in Known(keep, calls) && Connected(keep, calls, x, y)
  {
    OwnersAreKnown(keep, calls);
    GroupingIsConnectivity(keep, calls);
  }

  lemma OneRelation(keep: string -> bool, calls: seq<Call>, calls': seq<Call>)
    requires Known(keep, calls) == Known(keep, calls')
    ensures SameConnections(keep, calls, calls') <==> SameGroups(Run(keep, calls), Run(keep, calls'))
  {
    var s, s' := Run(keep, calls), Run(keep, calls');
    if SameConnections(keep, calls, calls') {
      forall x, y ensures Together(s, x, y) <==> Together(s', x, y) {
        ConnectedIsTogether(keep, calls, x, y);
        ConnectedIsTogether(keep, calls', x, y);
      }
    }
    if SameGroups(s, s') {
      forall x, y | x in Known(keep, calls) && y in Known(keep, calls)
        ensures Connected(keep, calls, x, y) <==> Connected(keep, calls', x, y)
      {
        ConnectedIsTogether(keep, calls, x, y);
        ConnectedIsTogether(keep, calls', x, y);
      }
    }
  }

  /**
   * After any calls, one more call connects the same identifiers with its kept addresses and without,
   * exactly when they are idle.
   */
  lemma ClearAddressesConnectExactlyWhen(keep: string -> bool, calls: seq<Call>, c: Call)
    ensures SameConnections(keep, calls + [c], calls + [Bare(keep, c)]) <==> Idle(keep, Run(keep, calls), c)
  {
    BareKnows(keep, calls, c);
    OneRelation(keep, calls + [c], calls + [Bare(keep, c)]);
    RunStep(keep, calls, c);
    RunStep(keep, calls, Bare(keep, c));
    ClearAddressesAreIdleExactlyWhen(keep, Run(keep, calls), c);
  }

  /** Every call of the run, without its kept addresses. */
  function BareAll(keep: string -> bool, calls: seq<Call>): seq<Call> {
    if calls == [] then [] else BareAll(keep, calls[..|calls| - 1]) + [Bare(keep, calls[|calls| - 1])]
  }

  /** So far no group owes anything to an address left in the clear. */
  ghost predicate TiesNothing(keep: string -> bool, calls: seq<Call>) {
    SameGroups(Run(keep, calls), Run(keep, BareAll(keep, calls)))
  }

  /** Call k leaves nothing but idle addresses in the clear. */
  predicate IdleAt(keep: string -> bool, calls: seq<Call>, k: nat)
    requires k < |calls|
  {
    Idle(keep, Run(keep, calls[..k]), calls[k])
  }

  lemma TouchedCarries(s: State, s': State, members: seq<string>, x: string)
    requires SameGroups(s, s') && Touched(s, members, x)
    ensures Touched(s', members, x)
  {
    var k :| 0 <= k < |members| && members[k] in s.owner && s.owner[members[k]] == s.owner[x];
    assert Together(s, members[k], x);
  }

  lemma SameDrawn(keep: string -> bool, s: State, s': State, c: Call, x: string)
    requires SameGroups(s, s')
    ensures Drawn(keep, s, c, x) <==> Drawn(keep, s', c, x)
  {
    if Touched(s, Members(c), x) { TouchedCarries(s, s', Members(c), x); }
    if Touched(s', Members(c), x) { TouchedCarries(s', s, Members(c), x); }
  }

  /** Linking respects the groups: which group an identifier is in matters, not which number it has. */
  lemma LinkRespects(keep: string -> bool, s: State, s': State, c: Call)
    requires Good(s) && Good(s') && SameGroups(s, s')
    ensures SameGroups(Link(keep, s, c), Link(keep, s', c))
  {
    if Members(c) != [] {
      forall x, y ensures Together(Link(keep, s, c), x, y) <==> Together(Link(keep, s', c), x, y) {
        SameDrawn(keep, s, s', c, x);
        SameDrawn(keep, s, s', c, y);
        assert Together(s, x, x) <==> Together(s', x, x);
        assert Together(s, y, y) <==> Together(s', y, y);
        assert Together(s, x, y) <==> Together(s', x, y);
        TogetherAfter(keep, s, c, x, y);
        TogetherAfter(keep, s', c, x, y);
      }
    }
  }

  lemma OneMoreCall(keep: string -> bool, calls: seq<Call>, c: Call)
    requires TiesNothing(keep, calls)
    ensures TiesNothing(keep, calls + [c]) <==> Idle(keep, Run(keep, calls), c)
  {
    var s, t, bare := Run(keep, calls), Run(keep, BareAll(keep, calls)), Bare(keep, c);
    assert (calls + [c])[..|calls|] == calls;
    RunStep(keep, calls, c);
    RunStep(keep, BareAll(keep, calls), bare);
    LinkRespects(keep, s, t, bare);
    ClearAddressesAreIdleExactlyWhen(keep, s, c);
    SameCompose(Link(keep, s, c), Link(keep, s, bare), Link(keep, t, bare));
  }

  lemma SameCompose(s: State, t: State, u: State)
    requires SameGroups(t, u)
    ensures SameGroups(s, u) <==> SameGroups(s, t)
  {
    forall x, y ensures Together(t, x, y) <==> Together(u, x, y) { }
  }

  ghost predicate TiesNothingAt(keep: string -> bool, calls: seq<Call>, k: nat)
    requires k <= |calls|
  {
    TiesNothing(keep, calls[..k])
  }

  lemma StepAt(keep: string -> bool, calls: seq<Call>, k: nat)
    requires k < |calls| && TiesNothingAt(keep, calls, k)
    ensures TiesNothingAt(keep, calls, k + 1) <==> IdleAt(keep, calls, k)
  {
    assert calls[..k + 1] == calls[..k] + [calls[k]];
    OneMoreCall(keep, calls[..k], calls[k]);
  }

  lemma {:induction false} StaysTrue(ties: seq<bool>, n: nat)
    requires n < |ties| && ties[0] && forall k | 0 <= k < |ties| - 1 && ties[k] :: ties[k + 1]
    ensures ties[n]
  {
    if n > 0 { StaysTrue(ties, n - 1); }
  }

  /** If each step keeps the one exactly when the other holds there, all of the one is all of the other. */
  lemma StepByStep(ties: seq<bool>, idle: seq<bool>)
    requires |ties| == |idle| + 1 && ties[0] && forall k | 0 <= k < |idle| && ties[k] :: ties[k + 1] <==> idle[k]
    ensures (forall k | 0 <= k < |ties| :: ties[k]) <==> (forall k | 0 <= k < |idle| :: idle[k])
  {
    if forall k | 0 <= k < |idle| :: idle[k] {
      forall n | 0 <= n < |ties| ensures ties[n] { StaysTrue(ties, n); }
    }
    if forall k | 0 <= k < |ties| :: ties[k] {
      forall k | 0 <= k < |idle| ensures idle[k] { assert ties[k] && ties[k + 1]; }
    }
  }

  lemma NothingYet(keep: string -> bool, calls: seq<Call>)
    ensures TiesNothingAt(keep, calls, 0)
  {
    assert calls[..0] == [];
  }

  /**
   * Over any run: after every call the groups are those of the same calls without their kept
   * addresses, if and only if these addresses were idle at every one of the calls.
   */
  lemma NothingTiedExactlyWhen(keep: string -> bool, calls: seq<Call>)
    ensures (forall k | 0 <= k <= |calls| :: TiesNothingAt(keep, calls, k))
            <==> (forall k | 0 <= k < |calls| :: IdleAt(keep, calls, k))
  {
    var ties := seq(|calls| + 1, k requires 0 <= k <= |calls| => TiesNothingAt(keep, calls, k));
    var idle := seq(|calls|, k requires 0 <= k < |calls| => IdleAt(keep, calls, k));
    NothingYet(keep, calls);
    forall k | 0 <= k < |idle| && ties[k] ensures ties[k + 1] <==> idle[k] { StepAt(keep, calls, k); }
    StepByStep(ties, idle);
    assert forall k | 0 <= k <= |calls| :: ties[k] <==> TiesNothingAt(keep, calls, k);
    assert forall k | 0 <= k < |calls| :: idle[k] <==> IdleAt(keep, calls, k);
  }

  // ---- What a call joins, edge by edge ----

  /** Every address of call k left in the clear that an earlier call registered is one of the call's own names too. */
  predicate ClearIsOwn(keep: string -> bool, calls: seq<Call>, k: nat)
    requires k < |calls|
  {
    forall ip | ip in calls[k].ips && keep(ip) && ip in Known(keep, calls[..k]) :: ip in Names(calls[k])
  }

  /**
   * What one call ties together directly is what it registers, exactly then. Ties that earlier calls
   * made already are not considered: the groups may be the same without this.
   */
  lemma ClearAddressesDoNotLink(keep: string -> bool, calls: seq<Call>, k: nat)
    requires k < |calls|
    ensures Edge(keep, calls, k) == OwnIds(keep, calls[k]) <==> ClearIsOwn(keep, calls, k)
  {
    if Edge(keep, calls, k) == OwnIds(keep, calls[k]) {
      forall ip | ip in calls[k].ips && keep(ip) && ip in Known(keep, calls[..k]) ensures ip in Names(calls[k]) {
        assert ip in Edge(keep, calls, k);
      }
    }
  }

  /** Addresses left in the clear are never registered under another kind. */
  ghost predicate Plain(keep: string -> bool, calls: seq<Call>) {
    forall k, m | 0 <= k < |calls| && m in Names(calls[k]) :: !keep(m)
  }

  lemma {:induction false} KnownIsPlain(keep: string -> bool, calls: seq<Call>, m: string)
    requires Plain(keep, calls) && m in Known(keep, calls)
    ensures !keep(m)
  {
    var init, c := calls[..|calls| - 1], calls[|calls| - 1];
    if m in Known(keep, init) {
      KnownIsPlain(keep, init, m);
    } else {
      assert m in Names(calls[|calls| - 1]) || m in OwnIps(keep, c);
    }
  }

  /** Then every call ties together exactly what it registers. */
  lemma PlainAddressesDoNotLink(keep: string -> bool, calls: seq<Call>, k: nat)
    requires Plain(keep, calls) && k < |calls|
    ensures Edge(keep, calls, k) == OwnIds(keep, calls[k])
  {
    forall m | m in calls[k].ips && m in Known(keep, calls[..k]) ensures m in OwnIds(keep, calls[k]) {
      KnownIsPlain(keep, calls[..k], m);
    }
  }

  lemma RunTwo(keep: string -> bool, c: Call, d: Call)
    ensures Run(keep, [c]) == Link(keep, Run(keep, []), c) && Run(keep, [c, d]) == Link(keep, Run(keep, [c]), d)
  {
    RunStep(keep, [], c);
    RunStep(keep, [c], d);
    assert [] + [c] == [c] && [c] + [d] == [c, d];
  }

  lemma FirstBinds(keep: string -> bool, s: State, first: Call, a: string, u: string, h: string)
    requires Good(s) && s.owner == map[] && a != h && u != h && first.hostnames == [a] && first.uuids == [u]
    requires first.ips == []
    ensures var s' := Link(keep, s, first);
            a in s'.owner && u in s'.owner && s'.owner[a] == s'.owner[u] && h !in s'.owner
  {
    assert Members(first) == [a, u];
    LinkOwner(keep, s, first, a);
    LinkOwner(keep, s, first, u);
    LinkOwner(keep, s, first, h);
  }

  lemma SharedClearJoins(keep: string -> bool, s: State, c: Call, a: string, u: string, h: string)
    requires Good(s) && a in s.owner && u in s.owner && s.owner[a] == s.owner[u]
    requires c.hostnames == [h] && c.uuids == [] && c.ips == [a]
    ensures var s' := Link(keep, s, c); u in s'.owner && h in s'.owner && s'.owner[u] == s'.owner[h]
  {
    assert Members(c) == [h, a] && Members(c)[1] == a;
    assert Touched(s, Members(c), u);
    LinkOwner(keep, s, c, u);
    LinkOwner(keep, s, c, h);
  }

  lemma NothingSharedParts(keep: string -> bool, s: State, d: Call, u: string, h: string)
    requires Good(s) && u in s.owner && h !in s.owner && d.hostnames == [h] && d.uuids == [] && d.ips == []
    ensures var s' := Link(keep, s, d); u in s'.owner && h in s'.owner && s'.owner[u] != s'.owner[h]
  {
    assert Members(d) == [h];
    LinkOwner(keep, s, d, u);
    LinkOwner(keep, s, d, h);
  }

  /**
   * An address left in the clear does link when it was registered as a hostname: one call names
   * `a` and `u`, another names `h` and reports `a` as its address. With that address the two calls
   * end in one group, without it in two.
   */
  lemma ClearAddressJoins(keep: string -> bool, a: string, u: string, h: string)
    requires keep(a) && a != h && u != h
    ensures var first := Call("", [a], [u], []);
            var joined, apart :=
              Run(keep, [first, Call("", [h], [], [a])]).owner, Run(keep, [first, Call("", [h], [], [])]).owner;
            && u in joined && h in joined && joined[u] == joined[h]
            && u in apart && h in apart && apart[u] != apart[h]
  {
    var first, c, d := Call("", [a], [u], []), Call("", [h], [], [a]), Call("", [h], [], []);
    RunTwo(keep, first, c);
    RunTwo(keep, first, d);
    FirstBinds(keep, Run(keep, []), first, a, u, h);
    SharedClearJoins(keep, Run(keep, [first]), c, a, u, h);
    NothingSharedParts(keep, Run(keep, [first]), d, u, h);
  }
}
