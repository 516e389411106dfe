/**
 * What a node group holds, read off the link calls and the owner map alone: each of
 * its three sets is exactly what calls listed as that kind and the group owns, and
 * its label key is the earliest among the calls that founded a part of it.
 */
module GroupContents {
  import opened Options
  import opened Strings
  import opened Grouping

  datatype Kind = Host | Uuid | Address

  /** One of a group's three sets. */
  function Part(g: Group, kind: Kind): set<string> {
    match kind
    case Host => g.hostnames
    case Uuid => g.uuids
    case Address => g.ips
  }

  /** What a call lists as that kind; addresses left in the clear are not listed. */
  function Given(keep: string -> bool, c: Call, kind: Kind): set<string> {
    match kind
    case Host => ToSet(c.hostnames)
    case Uuid => ToSet(c.uuids)
    case Address => OwnIps(keep, c)
  }

  function AllGiven(keep: string -> bool, calls: seq<Call>, kind: Kind): set<string> {
    if calls == [] then {} else AllGiven(keep, calls[..|calls| - 1], kind) + Given(keep, calls[|calls| - 1], kind)
  }

  predicate GivenBySome(keep: string -> bool, calls: seq<Call>, kind: Kind, m: string) {
    exists k | 0 <= k < |calls| :: m in Given(keep, calls[k], kind)
  }

  lemma {:induction false} AllGivenIs(keep: string -> bool, calls: seq<Call>, kind: Kind, m: string)
    ensures m in AllGiven(keep, calls, kind) <==> GivenBySome(keep, calls, kind, m)
  {
    if calls != [] {
      var init, c := calls[..|calls| - 1], calls[|calls| - 1];
      AllGivenIs(keep, init, kind, m);
      if GivenBySome(keep, init, kind, m) {
        var k :| 0 <= k < |init| && m in Given(keep, init[k], kind);
        assert calls[k] == init[k];
      }
      if GivenBySome(keep, calls, kind, m) && m !in Given(keep, c, kind) {
        var k :| 0 <= k < |calls| && m in Given(keep, calls[k], kind);
        assert init[k] == calls[k];
      }
    }
  }

  // ---- The three sets ----

  ghost predicate HoldsAt(s: State, kind: Kind, given: set<string>, i: nat, m: string)
    requires i < |s.groups|
  {
    s.groups[i].merged.None? ==> (m in Part(s.groups[i], kind) <==> m in given && m in s.owner && s.owner[m] == i)
  }

  /** Every live group's set of that kind is what was given as that kind and it owns. */
  ghost predicate Contents(s: State, kind: Kind, given: set<string>) {
    given <= s.owner.Keys && forall i, m | 0 <= i < |s.groups| :: HoldsAt(s, kind, given, i, m)
  }

  lemma MergeContents(s: State, into: nat, from: nat, kind: Kind, given: set<string>)
    requires Sound(s) && Contents(s, kind, given) && LiveGroup(s, into) && LiveGroup(s, from)
    ensures Contents(MergeNodes(s, into, from), kind, given)
  {
    if into == from { return; }
    var s' := MergeNodes(s, into, from);
    forall i, m | 0 <= i < |s'.groups| ensures HoldsAt(s', kind, given, i, m) {
      assert HoldsAt(s, kind, given, i, m) && HoldsAt(s, kind, given, from, m) && HoldsAt(s, kind, given, into, m);
      assert OwnedAt(s, m) && ListedAt(s, from, m);
    }
  }

  lemma NewGroupContents(s: State, when: string, kind: Kind, given: set<string>)
    requires Sound(s) && Contents(s, kind, given)
    ensures Contents(NewGroup(s, when), kind, given)
  {
    var s' := NewGroup(s, when);
    forall i, m | 0 <= i < |s'.groups| ensures HoldsAt(s', kind, given, i, m) {
      if i < |s.groups| { assert HoldsAt(s, kind, given, i, m); } else { assert OwnedAt(s, m); }
    }
  }

  lemma {:induction false} ScanContents(s: State, members: seq<string>, target: Option<nat>, kind: Kind,
          given: set<string>)
    requires Good(s) && (target.Some? ==> LiveGroup(s, target.value)) && Contents(s, kind, given)
    ensures Contents(Scan(s, members, target).0, kind, given)
    decreases |members|
  {
    if members != [] {
      var m := members[0];
      assert OwnedAt(s, m);
      if m in s.owner && target.Some? { MergeContents(s, target.value, s.owner[m], kind, given); }
      var (s', target') := ScanOne(s, m, target);
      ScanContents(s', members[1..], target', kind, given);
    }
  }

  lemma ClaimContents(s: State, t: nat, hostnames: set<string>, uuids: set<string>, ips: set<string>, kind: Kind,
          given: set<string>, more: set<string>)
    requires Sound(s) && Contents(s, kind, given) && Claimable(s, t, hostnames + uuids + ips)
    requires more == match kind case Host => hostnames case Uuid => uuids case Address => ips
    ensures Contents(Claim(s, t, hostnames, uuids, ips), kind, given + more)
  {
    var s' := Claim(s, t, hostnames, uuids, ips);
    forall i, m | 0 <= i < |s'.groups| ensures HoldsAt(s', kind, given + more, i, m) {
      assert HoldsAt(s, kind, given, i, m) && HoldsAt(s, kind, given, t, m);
    }
  }

  lemma LinkContents(keep: string -> bool, s: State, c: Call, kind: Kind, given: set<string>)
    requires Good(s) && Contents(s, kind, given)
    ensures Contents(Link(keep, s, c), kind, given + Given(keep, c, kind))
  {
    if Members(c) != [] {
      TargetGood(s, c);
      ScanContents(s, Members(c), None, kind, given);
      var r := Scan(s, Members(c), None);
      if r.1.None? { NewGroupContents(r.0, c.when, kind, given); }
      var (s1, t) := Target(s, r, c.when);
      assert OwnIds(keep, c) <= ToSet(Members(c));
      ClaimContents(s1, t, ToSet(c.hostnames), ToSet(c.uuids), OwnIps(keep, c), kind, given, Given(keep, c, kind));
    } else {
      assert OwnIds(keep, c) <= ToSet(Members(c));
      assert given + Given(keep, c, kind) == given;
    }
  }

  lemma {:induction false} RunContents(keep: string -> bool, calls: seq<Call>, kind: Kind)
    ensures Contents(Run(keep, calls), kind, AllGiven(keep, calls, kind))
  {
    if calls != [] {
      var init, c := calls[..|calls| - 1], calls[|calls| - 1];
      RunContents(keep, init, kind);
      LinkContents(keep, Run(keep, init), c, kind, AllGiven(keep, init, kind));
    }
  }

  lemma KindIsHeld(keep: string -> bool, calls: seq<Call>, g: nat, kind: Kind, m: string)
    requires LiveGroup(Run(keep, calls), g)
    ensures var s := Run(keep, calls);
            m in Part(s.groups[g], kind) <==> m in s.owner && s.owner[m] == g && GivenBySome(keep, calls, kind, m)
  {
    RunContents(keep, calls, kind);
    AllGivenIs(keep, calls, kind, m);
    assert HoldsAt(Run(keep, calls), kind, AllGiven(keep, calls, kind), g, m);
  }

  predicate ListedAsHost(calls: seq<Call>, m: string) {
    exists k | 0 <= k < |calls| :: m in calls[k].hostnames
  }

  predicate ListedAsUuid(calls: seq<Call>, m: string) {
    exists k | 0 <= k < |calls| :: m in calls[k].uuids
  }

  /** Listed as an address, and not left in the clear. */
  predicate ListedAsAddress(keep: string -> bool, calls: seq<Call>, m: string) {
    !keep(m) && exists k | 0 <= k < |calls| :: m in calls[k].ips
  }

  lemma GivenMeans(keep: string -> bool, calls: seq<Call>, m: string)
    ensures GivenBySome(keep, calls, Host, m) <==> ListedAsHost(calls, m)
    ensures GivenBySome(keep, calls, Uuid, m) <==> ListedAsUuid(calls, m)
    ensures GivenBySome(keep, calls, Address, m) <==> ListedAsAddress(keep, calls, m)
  {
    if k :| 0 <= k < |calls| && m in calls[k].hostnames { assert m in Given(keep, calls[k], Host); }
    if k :| 0 <= k < |calls| && m in calls[k].uuids { assert m in Given(keep, calls[k], Uuid); }
    if k :| 0 <= k < |calls| && m in calls[k].ips && !keep(m) { assert m in Given(keep, calls[k], Address); }
  }

  /** In these terms, what a group's three sets must be. */
  predicate HoldsItsKinds(keep: string -> bool, calls: seq<Call>, owner: map<string, nat>, g: nat, group: Group,
          m: string)
  {
    var owns := m in owner && owner[m] == g;
    && (m in group.hostnames <==> owns && ListedAsHost(calls, m))
    && (m in group.uuids <==> owns && ListedAsUuid(calls, m))
    && (m in group.ips <==> owns && ListedAsAddress(keep, calls, m))
  }

  /**
   * After any calls, a live group's hostnames are exactly the names some call listed as a hostname and
   * the group owns; likewise its UUIDs, and its addresses, where those left in the clear do not count.
   */
  lemma GroupHoldsItsKinds(keep: string -> bool, calls: seq<Call>, g: nat, m: string)
    requires LiveGroup(Run(keep, calls), g)
    ensures var s := Run(keep, calls); HoldsItsKinds(keep, calls, s.owner, g, s.groups[g], m)
  {
    KindIsHeld(keep, calls, g, Host, m);
    KindIsHeld(keep, calls, g, Uuid, m);
    KindIsHeld(keep, calls, g, Address, m);
    GivenMeans(keep, calls, m);
  }

  // ---- Founding calls ----

  /** Call k looks up nothing that has a group yet, so it founds one. */
  predicate Founds(keep: string -> bool, calls: seq<Call>, k: nat)
    requires k < |calls|
  {
    Members(calls[k]) != [] && forall m | m in Members(calls[k]) :: m !in Known(keep, calls[..k])
  }

  /** The founding calls, in order. */
  function Founders(keep: string -> bool, calls: seq<Call>): (f: seq<nat>)
    ensures forall i | 0 <= i < |f| :: f[i] < |calls| && Founds(keep, calls, f[i])
  {
    if calls == [] then []
    else
      var n := |calls| - 1;
      var f := Founders(keep, calls[..n]);
      assert forall i | 0 <= i < |f| :: calls[..n][..f[i]] == calls[..f[i]];
      if Founds(keep, calls, n) then f + [n] else f
  }

  /** Where the identifiers of each founding call are now; one that registered nothing stands alone. */
  ghost predicate RootedAt(s: State, ids: seq<set<string>>, i: nat)
    requires i < |ids| == |s.root|
  {
    if ids[i] == {} then
      && s.root[i] == i && (forall m | m in s.owner :: s.owner[m] != i)
      && forall j | 0 <= j < |s.root| && s.root[j] == i :: j == i
    else forall m | m in ids[i] :: m in s.owner && s.owner[m] == s.root[i]
  }

  ghost predicate Rooted(s: State, ids: seq<set<string>>) {
    |ids| == |s.groups| == |s.root| && forall i | 0 <= i < |ids| :: RootedAt(s, ids, i)
  }

  ghost predicate Owns(s: State, t: nat) {
    exists m | m in s.owner :: s.owner[m] == t
  }

  lemma MergeRooted(s: State, into: nat, from: nat, ids: seq<set<string>>)
    requires Sound(s) && Rooted(s, ids) && LiveGroup(s, into) && LiveGroup(s, from) && Owns(s, into) && Owns(s, from)
    ensures Rooted(MergeNodes(s, into, from), ids) && Owns(MergeNodes(s, into, from), into)
    ensures MergeNodes(s, into, from).born == s.born
  {
    if into == from { return; }
    var s' := MergeNodes(s, into, from);
    forall m ensures m in s'.owner <==> m in s.owner { assert OwnedAt(s, m) && ListedAt(s, from, m); }
    forall m | m in s.owner ensures s'.owner[m] == if s.owner[m] == from then into else s.owner[m] {
      assert OwnedAt(s, m) && ListedAt(s, from, m);
    }
    forall i | 0 <= i < |ids| ensures RootedAt(s', ids, i) { assert RootedAt(s, ids, i); }
    var m :| m in s.owner && s.owner[m] == into;
    assert m in s'.owner && s'.owner[m] == into;
  }

  lemma {:induction false} ScanRooted(s: State, members: seq<string>, target: Option<nat>, ids: seq<set<string>>)
    requires Good(s) && (target.Some? ==> LiveGroup(s, target.value) && Owns(s, target.value)) && Rooted(s, ids)
    ensures var (s', t) := Scan(s, members, target);
            Rooted(s', ids) && s'.born == s.born && (t.Some? ==> Owns(s', t.value))
    decreases |members|
  {
    if members != [] {
      var m := members[0];
      assert OwnedAt(s, m);
      if m in s.owner {
        assert Owns(s, s.owner[m]);
        if target.Some? { MergeRooted(s, target.value, s.owner[m], ids); }
      }
      var (s', target') := ScanOne(s, m, target);
      ScanRooted(s', members[1..], target', ids);
    }
  }

  /** A new group stands alone until it claims something. */
  lemma NewGroupRooted(s: State, when: string, ids: seq<set<string>>)
    requires Good(s) && Rooted(s, ids)
    ensures Rooted(NewGroup(s, when), ids + [{}])
  {
    var s' := NewGroup(s, when);
    forall m | m in s.owner ensures s.owner[m] < |s.groups| { assert OwnedAt(s, m); }
    forall i | 0 <= i < |s.groups| ensures s.root[i] < |s.groups| { assert ChainedAt(s, i); }
    forall i | 0 <= i < |s'.groups| ensures RootedAt(s', ids + [{}], i) {
      if i < |s.groups| { assert RootedAt(s, ids, i); }
    }
  }

  lemma ClaimRooted(s: State, t: nat, c: Call, own: set<string>, ips: set<string>, ids: seq<set<string>>)
    requires Sound(s) && Rooted(s, ids) && Claimable(s, t, own) && own == ToSet(c.hostnames) + ToSet(c.uuids) + ips
    requires s.root[t] == t
    requires ids[t] != {} ==> Owns(s, t)
    requires ids[t] == {} ==> t == |ids| - 1
    ensures Rooted(Claim(s, t, ToSet(c.hostnames), ToSet(c.uuids), ips), if ids[t] == {} then ids[t := own] else ids)
  {
    var s' := Claim(s, t, ToSet(c.hostnames), ToSet(c.uuids), ips);
    var ids' := if ids[t] == {} then ids[t := own] else ids;
    forall i | 0 <= i < |ids'| ensures RootedAt(s', ids', i) { assert RootedAt(s, ids, i); }
  }

  /** The identifiers each founding call registered. */
  function FoundedIds(keep: string -> bool, calls: seq<Call>): (r: seq<set<string>>)
    ensures |r| == |Founders(keep, calls)|
    ensures forall i | 0 <= i < |r| :: r[i] == OwnIds(keep, calls[Founders(keep, calls)[i]])
  {
    var f := Founders(keep, calls);
    seq(|f|, i requires 0 <= i < |f| => OwnIds(keep, calls[f[i]]))
  }

  /** Group i was founded by the i-th founding call, at its time. */
  ghost predicate FoundedBy(keep: string -> bool, calls: seq<Call>, s: State) {
    var f := Founders(keep, calls);
    && Rooted(s, FoundedIds(keep, calls)) && |s.born| == |f|
    && forall i | 0 <= i < |f| :: s.born[i] == calls[f[i]].when
  }

  lemma FoundersStep(keep: string -> bool, calls: seq<Call>, c: Call)
    ensures var all := calls + [c];
            var f := Founders(keep, calls);
            && Founders(keep, all) == (if Founds(keep, all, |calls|) then f + [|calls|] else f)
            && (forall i | 0 <= i < |f| :: all[f[i]] == calls[f[i]])
            && FoundedIds(keep, all) ==
                 if Founds(keep, all, |calls|) then FoundedIds(keep, calls) + [OwnIds(keep, c)]
                   else FoundedIds(keep, calls)
  {
    assert (calls + [c])[..|calls|] == calls;
  }

  /** The scan finds a group exactly when the call does not found one. */
  lemma FoundsIffNone(keep: string -> bool, calls: seq<Call>, c: Call)
    requires Members(c) != []
    ensures Founds(keep, calls + [c], |calls|) <==> Scan(Run(keep, calls), Members(c), None).1.None?
  {
    var s, all := Run(keep, calls), calls + [c];
    assert all[..|calls|] == calls;
    OwnersAreKnown(keep, calls);
    var t := Scan(s, Members(c), None).1;
    ScanOwner(s, Members(c), None, "");
    if t.None? {
      forall m | m in Members(c) ensures m !in s.owner {
        ScanOwner(s, Members(c), None, m);
        var k :| 0 <= k < |Members(c)| && Members(c)[k] == m;
      }
    } else {
      var k :| 0 <= k < |Members(c)| && Members(c)[k] in s.owner;
      assert Members(c)[k] in Members(c);
    }
  }

  /** One link call on a state whose groups are rooted in `ids` and born at `born`. */
  lemma LinkFounded(keep: string -> bool, s: State, c: Call, ids: seq<set<string>>)
    requires Good(s) && Rooted(s, ids) && Members(c) != []
    ensures var s' := Link(keep, s, c);
            if Scan(s, Members(c), None).1.None?
            then Rooted(s', ids + [OwnIds(keep, c)]) && s'.born == s.born + [c.when]
            else Rooted(s', ids) && s'.born == s.born
  {
    TargetGood(s, c);
    ScanRooted(s, Members(c), None, ids);
    ScanOwner(s, Members(c), None, "");
    var r := Scan(s, Members(c), None);
    var (s1, t) := Target(s, r, c.when);
    assert OwnIds(keep, c) <= ToSet(Members(c));
    assert ChainedAt(s1, t);
    if r.1.None? {
      NewGroupRooted(s, c.when, ids);
      ClaimRooted(s1, t, c, OwnIds(keep, c), OwnIps(keep, c), ids + [{}]);
      assert (ids + [{}])[t := OwnIds(keep, c)] == ids + [OwnIds(keep, c)];
    } else {
      assert RootedAt(s1, ids, t);
      ClaimRooted(s1, t, c, OwnIds(keep, c), OwnIps(keep, c), ids);
    }
  }

  lemma CallFounded(keep: string -> bool, calls: seq<Call>, c: Call, s: State)
    requires s == Run(keep, calls) && FoundedBy(keep, calls, s)
    ensures FoundedBy(keep, calls + [c], Link(keep, s, c))
  {
    FoundersStep(keep, calls, c);
    if Members(c) != [] {
      FoundsIffNone(keep, calls, c);
      LinkFounded(keep, s, c, FoundedIds(keep, calls));
    }
  }

  lemma {:induction false} RunFounded(keep: string -> bool, calls: seq<Call>)
    ensures FoundedBy(keep, calls, Run(keep, calls))
  {
    if calls != [] {
      var init, c := calls[..|calls| - 1], calls[|calls| - 1];
      assert calls == init + [c];
      RunFounded(keep, init);
      RunStep(keep, init, c);
      CallFounded(keep, init, c, Run(keep, init));
    }
  }

  /** The i-th founding call registered something that is now in the group that owns m. */
  ghost predicate FoundedPart(keep: string -> bool, calls: seq<Call>, s: State, g: nat, i: nat)
    requires i < |Founders(keep, calls)|
  {
    exists x | x in OwnIds(keep, calls[Founders(keep, calls)[i]]) :: x in s.owner && s.owner[x] == g
  }

  /** A founding call's group ended in g exactly when what it registered is there. */
  lemma RootIsPart(keep: string -> bool, calls: seq<Call>, g: nat, i: nat)
    requires i < |Founders(keep, calls)| && Owns(Run(keep, calls), g)
    ensures i < |Run(keep, calls).root|
    ensures Run(keep, calls).root[i] == g <==> FoundedPart(keep, calls, Run(keep, calls), g, i)
  {
    RunFounded(keep, calls);
    var s, ids := Run(keep, calls), FoundedIds(keep, calls);
    assert RootedAt(s, ids, i);
    if ids[i] != {} { var x :| x in ids[i]; }
  }

  /** The label key of a group, in terms of the calls: the times and the order of those that founded its parts. */
  ghost predicate KeyFromCalls(keep: string -> bool, calls: seq<Call>, s: State, g: nat)
    requires g < |s.groups|
  {
    var f, key := Founders(keep, calls), s.groups[g];
    && (forall i | 0 <= i < |f| && FoundedPart(keep, calls, s, g, i) ::
          key.order <= i + 1 && !Less(calls[f[i]].when, key.firstSeen))
    && (exists i | 0 <= i < |f| :: FoundedPart(keep, calls, s, g, i) && key.order == i + 1)
    && (exists i | 0 <= i < |f| :: FoundedPart(keep, calls, s, g, i) && key.firstSeen == calls[f[i]].when)
  }

  /**
   * After any calls, a group that owns something has the FirstSeen of the earliest, and the order of the
   * first, among the calls that founded a part of it: those that named something in it and nothing then
   * known.
   */
  lemma LabelKeyFromCalls(keep: string -> bool, calls: seq<Call>, m: string)
    requires m in Known(keep, calls)
    ensures var s := Run(keep, calls);
            && m in s.owner && s.owner[m] < |s.groups| && KeyFromCalls(keep, calls, s, s.owner[m])
  {
    OwnersAreKnown(keep, calls);
    RunFounded(keep, calls);
    var s, f := Run(keep, calls), Founders(keep, calls);
    assert OwnedAt(s, m);
    var g := s.owner[m];
    assert ChainedAt(s, g) && AttainedAt(s, g) && Owns(s, g);
    forall i | 0 <= i < |f| ensures s.root[i] == g <==> FoundedPart(keep, calls, s, g, i) {
      RootIsPart(keep, calls, g, i);
    }
    forall i | 0 <= i < |f| && FoundedPart(keep, calls, s, g, i)
      ensures s.groups[g].order <= i + 1 && !Less(calls[f[i]].when, s.groups[g].firstSeen)
    {
      assert LowerAt(s, i);
    }
    var i :| 0 <= i < |s.groups| && OrderFrom(s, g, i);
    var j :| 0 <= j < |s.groups| && SeenFrom(s, g, j);
    assert FoundedPart(keep, calls, s, g, i) && FoundedPart(keep, calls, s, g, j);
  }

  // ---- The list of live groups ----

  /** Listed in the order of creation. */
  predicate Ascending(live: seq<nat>) {
    forall j, k | 0 <= j < k < |live| :: live[j] < live[k]
  }

  lemma {:induction false} WithoutAscends(live: seq<nat>, x: nat)
    requires Ascending(live)
    ensures Ascending(Without(live, x)) && forall y | y in Without(live, x) :: y in live
  {
    if live != [] && live[0] != x {
      assert live == [live[0]] + live[1..];
      WithoutAscends(live[1..], x);
      var rest := Without(live[1..], x);
      forall k | 0 <= k < |rest| ensures live[0] < rest[k] {
        assert rest[k] in live[1..];
        var j :| 0 <= j < |live[1..]| && live[1..][j] == rest[k];
        assert live[j + 1] == rest[k];
      }
    }
  }

  lemma {:induction false} ScanAscends(s: State, members: seq<string>, target: Option<nat>)
    requires Good(s) && (target.Some? ==> LiveGroup(s, target.value)) && Ascending(s.live)
    ensures Ascending(Scan(s, members, target).0.live)
    decreases |members|
  {
    if members != [] {
      var m := members[0];
      assert OwnedAt(s, m);
      if m in s.owner && target.Some? { WithoutAscends(s.live, s.owner[m]); }
      var (s', target') := ScanOne(s, m, target);
      ScanAscends(s', members[1..], target');
    }
  }

  /** After any calls the live groups are listed in the order in which they were founded. */
  lemma {:induction false} LiveInFoundingOrder(keep: string -> bool, calls: seq<Call>)
    ensures Ascending(Run(keep, calls).live)
  {
    if calls != [] {
      var init, c := calls[..|calls| - 1], calls[|calls| - 1];
      var s := Run(keep, init);
      LiveInFoundingOrder(keep, init);
      ScanAscends(s, Members(c), None);
      var r := Scan(s, Members(c), None);
      forall k | 0 <= k < |r.0.live| ensures r.0.live[k] < |r.0.groups| { }
    }
  }
}
