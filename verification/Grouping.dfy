/**
 * Identifier grouping in scripts/collectlogs: `link` joins the hostnames, UUIDs and
 * addresses seen describing one machine, merging node groups by pointer. The groups
 * are proved to be the connected components of the link calls, the merge chain to
 * end in a live group, and each group's label key to be the least of all that went
 * into it. Groups are numbered in creation order.
 */
module Grouping {
  import opened Options
  import opened Strings

  /** One link call. */
  datatype Call = Call(when: string, hostnames: seq<string>, uuids: seq<string>, ips: seq<string>)

  /** A node group; `rank` is the moment it was merged away. */
  datatype Group = Group(hostnames: set<string>, uuids: set<string>, ips: set<string>, firstSeen: string, order: nat,
                         merged: Option<nat>, rank: nat)

  /** `root`, `born` and `clock` record where each group ended up, its first timestamp, and the merges so far. */
  datatype State = State(groups: seq<Group>, owner: map<string, nat>, live: seq<nat>, root: seq<nat>, born: seq<string>,
                         clock: nat)

  const EMPTY := State([], map[], [], [], [], 0)

  function Ids(g: Group): set<string> {
    g.hostnames + g.uuids + g.ips
  }

  // ---- Timestamps ----

  /** mergeNodes' rule for FirstSeen; "" marks a group from a bundle header. */
  function Earlier(into: string, from: string): string {
    if from == "" then "" else if into != "" && Less(from, into) then from else into
  }

  /** The rule is the minimum, with "" first. */
  lemma EarlierIsLeast(a: string, b: string)
    ensures Earlier(a, b) == a || Earlier(a, b) == b
    ensures !Less(a, Earlier(a, b)) && !Less(b, Earlier(a, b))
    ensures Earlier(a, b) == Earlier(b, a)
  {
    LessIrreflexive(a);
    LessIrreflexive(b);
    LessTotal(a, b);
    if Less(a, b) && Less(b, a) { LessTransitive(a, b, a); }
  }

  // ---- The operations ----

  function Without(live: seq<nat>, x: nat): seq<nat> {
    if live == [] then [] else if live[0] == x then live[1..] else [live[0]] + Without(live[1..], x)
  }

  function NewGroup(s: State, when: string): State {
    s.(groups := s.groups + [Group({}, {}, {}, when, |s.groups| + 1, None, 0)], live := s.live + [|s.groups|],
       root := s.root + [|s.groups|], born := s.born + [when])
  }

  function Absorb(a: Group, b: Group): Group {
    a.(hostnames := a.hostnames + b.hostnames, uuids := a.uuids + b.uuids, ips := a.ips + b.ips,
       firstSeen := Earlier(a.firstSeen, b.firstSeen), order := if b.order < a.order then b.order else a.order)
  }

  /** Every identifier of `from` is owned by `into` from now on. */
  function Reown(owner: map<string, nat>, ids: set<string>, into: nat): map<string, nat> {
    map m | m in owner.Keys + ids :: if m in ids then into else owner[m]
  }

  function MergeNodes(s: State, into: nat, from: nat): State
    requires into < |s.groups| && from < |s.groups|
  {
    if into == from then s
    else
      var a, b := s.groups[into], s.groups[from];
      s.(groups := s.groups[into := Absorb(a, b)][from := b.(merged := Some(into), rank := s.clock)],
         owner := Reown(s.owner, Ids(b), into), live := Without(s.live, from),
         root := seq(|s.root|, i requires 0 <= i < |s.root| => if s.root[i] == from then into else s.root[i]),
         clock := s.clock + 1)
  }

  // ---- What every operation keeps ----

  /** An identifier's owner is a live group that lists it. */
  ghost predicate OwnedAt(s: State, m: string) {
    m in s.owner ==> s.owner[m] < |s.groups| && s.groups[s.owner[m]].merged.None? && m in Ids(s.groups[s.owner[m]])
  }

  /** A live group owns what it lists. */
  ghost predicate ListedAt(s: State, i: nat, m: string)
    requires i < |s.groups|
  {
    s.groups[i].merged.None? && m in Ids(s.groups[i]) ==> m in s.owner && s.owner[m] == i
  }

  ghost predicate LiveAt(s: State, i: nat)
    requires i < |s.groups|
  {
    i in s.live <==> s.groups[i].merged.None?
  }

  ghost predicate Sound(s: State) {
    && (forall m :: OwnedAt(s, m))
    && (forall i, m | 0 <= i < |s.groups| :: ListedAt(s, i, m))
    && (forall i | 0 <= i < |s.groups| :: LiveAt(s, i))
    && (forall k | 0 <= k < |s.live| :: s.live[k] < |s.groups|)
    && (forall j, k | 0 <= j < k < |s.live| :: s.live[j] != s.live[k])
  }

  ghost predicate ChainedAt(s: State, i: nat)
    requires i < |s.groups| == |s.root|
  {
    && s.root[i] < |s.groups| && s.groups[s.root[i]].merged.None?
    && match s.groups[i].merged
       case None => s.root[i] == i
       case Some(j) => && j < |s.groups| && s.root[i] == s.root[j] && s.groups[i].rank < s.clock
                       && (s.groups[j].merged.Some? ==> s.groups[i].rank < s.groups[j].rank)
  }

  /** Merge pointers lead, in the order of the merges, to the root. */
  ghost predicate Chained(s: State) {
    |s.root| == |s.groups| && forall i | 0 <= i < |s.groups| :: ChainedAt(s, i)
  }

  ghost predicate LowerAt(s: State, i: nat)
    requires i < |s.groups| == |s.root| == |s.born|
  {
    s.root[i] < |s.groups| && s.groups[s.root[i]].order <= i + 1 && !Less(s.born[i], s.groups[s.root[i]].firstSeen)
  }

  ghost predicate OrderFrom(s: State, g: nat, i: nat)
    requires g < |s.groups| == |s.root| == |s.born| && i < |s.groups|
  {
    s.root[i] == g && s.groups[g].order == i + 1
  }

  ghost predicate SeenFrom(s: State, g: nat, i: nat)
    requires g < |s.groups| == |s.root| == |s.born| && i < |s.groups|
  {
    s.root[i] == g && s.groups[g].firstSeen == s.born[i]
  }

  ghost predicate AttainedAt(s: State, g: nat)
    requires g < |s.groups| == |s.root| == |s.born|
  {
    s.groups[g].merged.None? ==>
      (exists i | 0 <= i < |s.groups| :: OrderFrom(s, g, i)) && (exists i | 0 <= i < |s.groups| :: SeenFrom(s, g, i))
  }

  /** A live group's key is the least over the groups merged into it. */
  ghost predicate Least(s: State) {
    && |s.root| == |s.groups| == |s.born|
    && (forall i | 0 <= i < |s.groups| :: LowerAt(s, i))
    && (forall g | 0 <= g < |s.groups| :: AttainedAt(s, g))
  }

  predicate NoRepeats(live: seq<nat>) {
    forall j, k | 0 <= j < k < |live| :: live[j] != live[k]
  }

  lemma ConsNoRepeats(x: nat, rest: seq<nat>)
    requires NoRepeats(rest) && x !in rest
    ensures NoRepeats([x] + rest)
  {
    var all := [x] + rest;
    forall j, k | 0 <= j < k < |all| ensures all[j] != all[k] {
      assert all[k] == rest[k - 1];
      assert j > 0 ==> all[j] == rest[j - 1];
    }
  }

  lemma TailNoRepeats(live: seq<nat>)
    requires NoRepeats(live) && live != []
    ensures NoRepeats(live[1..]) && live[0] !in live[1..]
  {
    var rest := live[1..];
    assert forall k | 0 <= k < |rest| :: rest[k] == live[k + 1];
  }

  lemma {:induction false} WithoutRemoves(live: seq<nat>, x: nat)
    requires NoRepeats(live)
    ensures forall i :: i in Without(live, x) <==> i in live && i != x
    ensures NoRepeats(Without(live, x))
  {
    if live != [] {
      TailNoRepeats(live);
      assert live == [live[0]] + live[1..];
      if live[0] != x {
        WithoutRemoves(live[1..], x);
        ConsNoRepeats(live[0], Without(live[1..], x));
      }
    }
  }

  lemma {:induction false} WithoutAt(live: seq<nat>, x: nat, i: nat)
    requires i < |live| && live[i] == x && forall k | 0 <= k < i :: live[k] != x
    ensures Without(live, x) == live[..i] + live[i + 1..]
  {
    if i > 0 {
      WithoutAt(live[1..], x, i - 1);
      assert [live[0]] + live[1..][..i - 1] == live[..i] && live[1..][i..] == live[i + 1..];
    }
  }

  lemma {:induction false} WithoutAbsent(live: seq<nat>, x: nat)
    requires x !in live
    ensures Without(live, x) == live
  {
    if live != [] {
      WithoutAbsent(live[1..], x);
      assert live == [live[0]] + live[1..];
    }
  }

  lemma NewGroupSound(s: State, when: string)
    requires Sound(s)
    ensures Sound(NewGroup(s, when))
  {
    var s' := NewGroup(s, when);
    forall m ensures OwnedAt(s', m) { assert OwnedAt(s, m); }
    forall i, m | 0 <= i < |s'.groups| ensures ListedAt(s', i, m) { if i < |s.groups| { assert ListedAt(s, i, m); } }
    forall i | 0 <= i < |s'.groups| ensures LiveAt(s', i) { if i < |s.groups| { assert LiveAt(s, i); } }
  }

  lemma NewGroupChained(s: State, when: string)
    requires Chained(s)
    ensures Chained(NewGroup(s, when))
  {
    var s' := NewGroup(s, when);
    forall i | 0 <= i < |s'.groups| ensures ChainedAt(s', i) { if i < |s.groups| { assert ChainedAt(s, i); } }
  }

  lemma NewGroupLeast(s: State, when: string)
    requires Least(s)
    ensures Least(NewGroup(s, when))
  {
    var s', n := NewGroup(s, when), |s.groups|;
    LessIrreflexive(when);
    forall i | 0 <= i < |s'.groups| ensures LowerAt(s', i) { if i < n { assert LowerAt(s, i); } }
    forall g | 0 <= g < |s'.groups| ensures AttainedAt(s', g) {
      if g == n {
        assert OrderFrom(s', n, n) && SeenFrom(s', n, n);
      } else if s.groups[g].merged.None? {
        assert AttainedAt(s, g);
        var i :| 0 <= i < n && OrderFrom(s, g, i);
        var j :| 0 <= j < n && SeenFrom(s, g, j);
        assert OrderFrom(s', g, i) && SeenFrom(s', g, j);
      }
    }
  }

  lemma MergeSound(s: State, into: nat, from: nat)
    requires Sound(s) && into < |s.groups| && from < |s.groups| && s.groups[into].merged.None?
    requires s.groups[from].merged.None?
    ensures Sound(MergeNodes(s, into, from))
  {
    if into == from { return; }
    var s' := MergeNodes(s, into, from);
    WithoutRemoves(s.live, from);
    forall m ensures OwnedAt(s', m) { MergeOwned(s, into, from, m); }
    forall i, m | 0 <= i < |s'.groups| ensures ListedAt(s', i, m) { MergeListed(s, into, from, i, m); }
    forall i | 0 <= i < |s'.groups| ensures LiveAt(s', i) { assert LiveAt(s, i); }
    forall k | 0 <= k < |s'.live| ensures s'.live[k] < |s'.groups| { assert s'.live[k] in s.live; }
  }

  lemma MergeOwned(s: State, into: nat, from: nat, m: string)
    requires into < |s.groups| && from < |s.groups| && into != from && s.groups[into].merged.None? && OwnedAt(s, m)
    requires ListedAt(s, from, m) && s.groups[from].merged.None?
    ensures OwnedAt(MergeNodes(s, into, from), m)
  {
  }

  lemma MergeListed(s: State, into: nat, from: nat, i: nat, m: string)
    requires into < |s.groups| && from < |s.groups| && into != from && i < |s.groups| && s.groups[into].merged.None?
    requires ListedAt(s, into, m) && ListedAt(s, from, m) && ListedAt(s, i, m) && s.groups[from].merged.None?
    ensures ListedAt(MergeNodes(s, into, from), i, m)
  {
  }

  lemma MergeChained(s: State, into: nat, from: nat)
    requires Chained(s) && into < |s.groups| && from < |s.groups| && s.groups[into].merged.None?
    requires s.groups[from].merged.None?
    ensures Chained(MergeNodes(s, into, from))
  {
    if into == from { return; }
    var s' := MergeNodes(s, into, from);
    assert ChainedAt(s, into) && ChainedAt(s, from);
    forall i | 0 <= i < |s'.groups| ensures ChainedAt(s', i) {
      assert ChainedAt(s, i);
    }
  }

  lemma MergeLeast(s: State, into: nat, from: nat)
    requires Chained(s) && Least(s) && into < |s.groups| && from < |s.groups|
    requires s.groups[into].merged.None? && s.groups[from].merged.None?
    ensures Least(MergeNodes(s, into, from))
  {
    if into == from { return; }
    var s' := MergeNodes(s, into, from);
    forall i | 0 <= i < |s'.groups| ensures LowerAt(s', i) {
      assert LowerAt(s, i) && ChainedAt(s, i);
      MergeLower(s, into, from, i);
    }
    forall g | 0 <= g < |s'.groups| ensures AttainedAt(s', g) {
      MergeAttained(s, into, from, g);
    }
  }

  /** Not below x, and x not below y, is not below y. */
  lemma Below(w: string, x: string, y: string)
    requires !Less(w, x) && !Less(x, y)
    ensures !Less(w, y)
  {
    LessTotal(w, x);
    LessTotal(x, y);
    if Less(w, y) {
      if Less(y, x) { LessTransitive(w, y, x); }
    }
  }

  lemma MergeLower(s: State, into: nat, from: nat, i: nat)
    requires |s.root| == |s.groups| == |s.born| && into < |s.groups| && from < |s.groups| && into != from
    requires i < |s.groups|
    requires LowerAt(s, i) && s.groups[s.root[i]].merged.None?
    ensures LowerAt(MergeNodes(s, into, from), i)
  {
    var a, b := s.groups[into].firstSeen, s.groups[from].firstSeen;
    EarlierIsLeast(a, b);
    if s.root[i] == into { Below(s.born[i], a, Earlier(a, b)); }
    if s.root[i] == from { Below(s.born[i], b, Earlier(a, b)); }
  }

  lemma MergeAttained(s: State, into: nat, from: nat, g: nat)
    requires Least(s) && into < |s.groups| && from < |s.groups| && into != from && g < |s.groups|
    requires s.groups[into].merged.None? && s.groups[from].merged.None?
    ensures AttainedAt(MergeNodes(s, into, from), g)
  {
    var s' := MergeNodes(s, into, from);
    if s'.groups[g].merged.None? {
      EarlierIsLeast(s.groups[into].firstSeen, s.groups[from].firstSeen);
      var byOrder := if g == into && s.groups[from].order < s.groups[into].order then from else g;
      var byTime := if g == into && s'.groups[g].firstSeen != s.groups[into].firstSeen then from else g;
      assert AttainedAt(s, byOrder) && AttainedAt(s, byTime);
      var i :| 0 <= i < |s.groups| && OrderFrom(s, byOrder, i);
      var j :| 0 <= j < |s.groups| && SeenFrom(s, byTime, j);
      assert OrderFrom(s', g, i) && SeenFrom(s', g, j);
    }
  }

  // ---- link ----

  ghost predicate Good(s: State) {
    Sound(s) && Chained(s) && Least(s)
  }

  predicate LiveGroup(s: State, t: nat) {
    t < |s.groups| && s.groups[t].merged.None?
  }

  lemma MergeGood(s: State, into: nat, from: nat)
    requires Good(s) && LiveGroup(s, into) && LiveGroup(s, from)
    ensures Good(MergeNodes(s, into, from)) && LiveGroup(MergeNodes(s, into, from), into)
    ensures |MergeNodes(s, into, from).groups| == |s.groups|
  {
    MergeSound(s, into, from);
    MergeChained(s, into, from);
    MergeLeast(s, into, from);
  }

  /** The group the members already belong to, after merging all such groups into the first one found. */
  function Scan(s: State, members: seq<string>, target: Option<nat>): (r: (State, Option<nat>))
    requires Good(s) && (target.Some? ==> LiveGroup(s, target.value))
    ensures Good(r.0) && (r.1.Some? ==> LiveGroup(r.0, r.1.value))
    decreases |members|
  {
    if members == [] then (s, target)
    else
      var (s', target') := ScanOne(s, members[0], target);
      Scan(s', members[1..], target')
  }

  /** One member: its group becomes the target, or is merged into the target. */
  function ScanOne(s: State, m: string, target: Option<nat>): (r: (State, Option<nat>))
    requires Good(s) && (target.Some? ==> LiveGroup(s, target.value))
    ensures Good(r.0) && (r.1.Some? ==> LiveGroup(r.0, r.1.value))
  {
    assert OwnedAt(s, m);
    if m !in s.owner then (s, target)
    else if target.None? then (s, Some(s.owner[m]))
    else if target.value != s.owner[m] then
      MergeGood(s, target.value, s.owner[m]);
      (MergeNodes(s, target.value, s.owner[m]), target)
    else (s, target)
  }

  /** The last loops of link: the target lists and owns the identifiers. */
  function Claim(s: State, t: nat, hostnames: set<string>, uuids: set<string>, ips: set<string>): State
    requires t < |s.groups|
  {
    var g := s.groups[t];
    s.(groups := s.groups[t := g.(hostnames := g.hostnames + hostnames, uuids := g.uuids + uuids, ips := g.ips + ips)],
       owner := Reown(s.owner, hostnames + uuids + ips, t))
  }

  function Members(c: Call): seq<string> {
    c.hostnames + c.uuids + c.ips
  }

  function ToSet(a: seq<string>): set<string> {
    set x | x in a
  }

  /** Addresses left in the clear are not node-owned. */
  function OwnIps(keep: string -> bool, c: Call): set<string> {
    set ip | ip in c.ips && !keep(ip)
  }

  function Names(c: Call): set<string> {
    ToSet(c.hostnames) + ToSet(c.uuids)
  }

  function OwnIds(keep: string -> bool, c: Call): set<string> {
    Names(c) + OwnIps(keep, c)
  }

  function Target(s: State, r: (State, Option<nat>), when: string): (State, nat) {
    if r.1.None? then (NewGroup(r.0, when), |r.0.groups|) else (r.0, r.1.value)
  }

  function Link(keep: string -> bool, s: State, c: Call): State
    requires Good(s)
  {
    if Members(c) == [] then s
    else
      var (s1, t) := Target(s, Scan(s, Members(c), None), c.when);
      Claim(s1, t, ToSet(c.hostnames), ToSet(c.uuids), OwnIps(keep, c))
  }

  // ---- What link does to ownership ----

  /** Some member is owned by the group that owns x. */
  ghost predicate Touched(s: State, members: seq<string>, x: string) {
    x in s.owner && exists k | 0 <= k < |members| :: members[k] in s.owner && s.owner[members[k]] == s.owner[x]
  }

  lemma MergeOwner(s: State, into: nat, from: nat, x: string)
    requires Sound(s) && LiveGroup(s, into) && LiveGroup(s, from)
    ensures var s' := MergeNodes(s, into, from);
            && (x in s'.owner <==> x in s.owner)
            && (x in s.owner ==> s'.owner[x] == if s.owner[x] == from then into else s.owner[x])
  {
    assert OwnedAt(s, x) && ListedAt(s, from, x);
  }

  lemma {:induction false} ScanOwner(s: State, members: seq<string>, target: Option<nat>, x: string)
    requires Good(s) && (target.Some? ==> LiveGroup(s, target.value))
    ensures var (s', t) := Scan(s, members, target);
            && (x in s'.owner <==> x in s.owner)
            && (target.Some? ==> t == target)
            && (t.None? ==> s' == s && !Touched(s, members, x))
            && (t.Some? && x in s.owner ==>
                  s'.owner[x] == if s.owner[x] == t.value || Touched(s, members, x) then t.value else s.owner[x])
            && (target.None? && t.Some? ==> exists k | 0 <= k < |members| ::
                members[k] in s.owner && s.owner[members[k]] == t.value)
    decreases |members|
  {
    if members != [] {
      var m, rest := members[0], members[1..];
      assert OwnedAt(s, m);
      assert members == [m] + rest;
      TouchedCons(s, m, rest, x);
      if m !in s.owner {
        ScanOwner(s, rest, target, x);
      } else if target.None? {
        ScanOwner(s, rest, Some(s.owner[m]), x);
        assert members[0] in s.owner;
      } else if target.value != s.owner[m] {
        MergeGood(s, target.value, s.owner[m]);
        var s1 := MergeNodes(s, target.value, s.owner[m]);
        ScanOwner(s1, rest, target, x);
        MergeOwner(s, target.value, s.owner[m], x);
        MergeTouched(s, target.value, s.owner[m], rest, x);
      } else {
        ScanOwner(s, rest, target, x);
      }
    }
  }

  lemma TouchedCons(s: State, m: string, rest: seq<string>, x: string)
    ensures Touched(s, [m] + rest, x)
            <==> Touched(s, rest, x) || (x in s.owner && m in s.owner && s.owner[m] == s.owner[x])
  {
    var all := [m] + rest;
    if Touched(s, rest, x) {
      var k :| 0 <= k < |rest| && rest[k] in s.owner && s.owner[rest[k]] == s.owner[x];
      assert all[k + 1] == rest[k];
    }
    if x in s.owner && m in s.owner && s.owner[m] == s.owner[x] { assert all[0] == m; }
  }

  /** Touched, seen through a merge, for an x outside the merged groups. */
  lemma MergeTouched(s: State, into: nat, from: nat, members: seq<string>, x: string)
    requires Sound(s) && LiveGroup(s, into) && LiveGroup(s, from) && into != from
    ensures var s' := MergeNodes(s, into, from);
            x in s.owner && s.owner[x] != into && s.owner[x] != from ==>
              (Touched(s', members, x) <==> Touched(s, members, x))
  {
    var s' := MergeNodes(s, into, from);
    MergeOwner(s, into, from, x);
    forall k | 0 <= k < |members|
      ensures (members[k] in s'.owner <==> members[k] in s.owner)
              && (members[k] in s.owner ==> s'.owner[members[k]] == if s.owner[members[k]] == from then into
                  else s.owner[members[k]])
    {
      MergeOwner(s, into, from, members[k]);
    }
  }

  /** Claiming is safe when nobody else owns the identifiers. */
  ghost predicate Claimable(s: State, t: nat, ids: set<string>) {
    LiveGroup(s, t) && forall m | m in ids && m in s.owner :: s.owner[m] == t
  }

  lemma ClaimGood(s: State, t: nat, hostnames: set<string>, uuids: set<string>, ips: set<string>)
    requires Good(s) && Claimable(s, t, hostnames + uuids + ips)
    ensures Good(Claim(s, t, hostnames, uuids, ips))
  {
    var s' := Claim(s, t, hostnames, uuids, ips);
    forall m ensures OwnedAt(s', m) { assert OwnedAt(s, m); }
    forall i, m | 0 <= i < |s'.groups| ensures ListedAt(s', i, m) { assert ListedAt(s, i, m) && OwnedAt(s, m); }
    forall i | 0 <= i < |s'.groups| ensures LiveAt(s', i) && ChainedAt(s', i) && LowerAt(s', i) && AttainedAt(s', i) {
      assert LiveAt(s, i) && ChainedAt(s, i) && LowerAt(s, i) && AttainedAt(s, i);
      ClaimKeepsKeys(s, t, hostnames, uuids, ips, i);
    }
  }

  lemma ClaimKeepsKeys(s: State, t: nat, hostnames: set<string>, uuids: set<string>, ips: set<string>, g: nat)
    requires t < |s.groups| == |s.root| == |s.born| && g < |s.groups| && AttainedAt(s, g)
    ensures AttainedAt(Claim(s, t, hostnames, uuids, ips), g)
  {
    var s' := Claim(s, t, hostnames, uuids, ips);
    if s.groups[g].merged.None? {
      var i :| 0 <= i < |s.groups| && OrderFrom(s, g, i);
      var j :| 0 <= j < |s.groups| && SeenFrom(s, g, j);
      assert OrderFrom(s', g, i) && SeenFrom(s', g, j);
    }
  }

  /** The group link settles on: good, live, and free to claim the members. */
  lemma TargetGood(s: State, c: Call)
    requires Good(s)
    ensures var (s1, t) := Target(s, Scan(s, Members(c), None), c.when);
            Good(s1) && forall ids | ids <= ToSet(Members(c)) :: Claimable(s1, t, ids)
  {
    var members := Members(c);
    var r := Scan(s, members, None);
    if r.1.None? {
      NewGroupSound(r.0, c.when);
      NewGroupChained(r.0, c.when);
      NewGroupLeast(r.0, c.when);
    }
    var (s1, t) := Target(s, r, c.when);
    forall m | m in ToSet(members) && m in s1.owner ensures s1.owner[m] == t {
      ScanOwner(s, members, None, m);
      var k :| 0 <= k < |members| && members[k] == m;
      assert Touched(s, members, m);
    }
  }

  lemma LinkGood(keep: string -> bool, s: State, c: Call)
    requires Good(s)
    ensures Good(Link(keep, s, c))
  {
    if Members(c) != [] {
      TargetGood(s, c);
      var (s1, t) := Target(s, Scan(s, Members(c), None), c.when);
      assert OwnIds(keep, c) <= ToSet(Members(c));
      ClaimGood(s1, t, ToSet(c.hostnames), ToSet(c.uuids), OwnIps(keep, c));
    }
  }

  /** The identifiers a call puts into one group. */
  ghost predicate Drawn(keep: string -> bool, s: State, c: Call, x: string) {
    x in OwnIds(keep, c) || Touched(s, Members(c), x)
  }

  lemma LinkOwner(keep: string -> bool, s: State, c: Call, x: string)
    requires Good(s) && Members(c) != []
    ensures var s', t := Link(keep, s, c), Target(s, Scan(s, Members(c), None), c.when).1;
            && (x in s'.owner <==> x in s.owner || x in OwnIds(keep, c))
            && (x in s'.owner ==> s'.owner[x] == if Drawn(keep, s, c, x) then t else s.owner[x])
            && (x in s.owner && !Drawn(keep, s, c, x) ==> s.owner[x] != t)
  {
    ScanOwner(s, Members(c), None, x);
    assert OwnedAt(s, x);
    var (s1, t0) := Scan(s, Members(c), None);
    if t0.Some? && x in s.owner && s.owner[x] == t0.value {
      var k :| 0 <= k < |Members(c)| && Members(c)[k] in s.owner && s.owner[Members(c)[k]] == t0.value;
      assert Touched(s, Members(c), x);
    }
  }

  // ---- Connectivity ----

  function Run(keep: string -> bool, calls: seq<Call>): (s: State)
    ensures Good(s)
  {
    if calls == [] then EMPTY
    else
      var s := Run(keep, calls[..|calls| - 1]);
      LinkGood(keep, s, calls[|calls| - 1]);
      Link(keep, s, calls[|calls| - 1])
  }

  /** The identifiers some call has registered. */
  function Known(keep: string -> bool, calls: seq<Call>): set<string> {
    if calls == [] then {} else Known(keep, calls[..|calls| - 1]) + OwnIds(keep, calls[|calls| - 1])
  }

  /**
   * What call k ties together: the identifiers it registers, and any address left in the
   * clear that an earlier call had registered as something else.
   */
  function Edge(keep: string -> bool, calls: seq<Call>, k: nat): set<string>
    requires k < |calls|
  {
    OwnIds(keep, calls[k]) + set m | m in calls[k].ips && m in Known(keep, calls[..k])
  }

  ghost predicate Adjacent(keep: string -> bool, calls: seq<Call>, x: string, y: string) {
    exists k | 0 <= k < |calls| :: x in Edge(keep, calls, k) && y in Edge(keep, calls, k)
  }

  ghost predicate Path(keep: string -> bool, calls: seq<Call>, p: seq<string>) {
    p != [] && forall i | 0 <= i < |p| - 1 :: Adjacent(keep, calls, p[i], p[i + 1])
  }

  /** A chain of calls connects x and y. */
  ghost predicate Connected(keep: string -> bool, calls: seq<Call>, x: string, y: string) {
    exists p :: Path(keep, calls, p) && p[0] == x && p[|p| - 1] == y
  }

  lemma ConnectedJoin(keep: string -> bool, calls: seq<Call>, x: string, y: string, z: string)
    requires Connected(keep, calls, x, y) && Connected(keep, calls, y, z)
    ensures Connected(keep, calls, x, z)
  {
    var p :| Path(keep, calls, p) && p[0] == x && p[|p| - 1] == y;
    var q :| Path(keep, calls, q) && q[0] == y && q[|q| - 1] == z;
    var r := p + q[1..];
    forall i | 0 <= i < |r| - 1 ensures Adjacent(keep, calls, r[i], r[i + 1]) {
      if i < |p| - 1 {
        assert r[i] == p[i] && r[i + 1] == p[i + 1];
      } else {
        assert r[i] == q[i - |p| + 1] && r[i + 1] == q[i - |p| + 2];
      }
    }
    assert Path(keep, calls, r) && r[0] == x && r[|r| - 1] == z;
  }

  lemma ConnectedBack(keep: string -> bool, calls: seq<Call>, x: string, y: string)
    requires Connected(keep, calls, x, y)
    ensures Connected(keep, calls, y, x)
  {
    var p :| Path(keep, calls, p) && p[0] == x && p[|p| - 1] == y;
    var r := seq(|p|, i requires 0 <= i < |p| => p[|p| - 1 - i]);
    forall i | 0 <= i < |r| - 1 ensures Adjacent(keep, calls, r[i], r[i + 1]) {
      assert Adjacent(keep, calls, p[|p| - 2 - i], p[|p| - 1 - i]);
    }
    assert Path(keep, calls, r) && r[0] == y && r[|r| - 1] == x;
  }

  lemma ConnectedByEdge(keep: string -> bool, calls: seq<Call>, k: nat, x: string, y: string)
    requires k < |calls| && x in Edge(keep, calls, k) && y in Edge(keep, calls, k)
    ensures Connected(keep, calls, x, y)
  {
    var p := [x, y];
    assert Path(keep, calls, p);
  }

  lemma ConnectedSelf(keep: string -> bool, calls: seq<Call>, x: string)
    ensures Connected(keep, calls, x, x)
  {
    assert Path(keep, calls, [x]);
  }

  lemma EdgePrefix(keep: string -> bool, calls: seq<Call>, c: Call, k: nat)
    requires k < |calls|
    ensures Edge(keep, calls + [c], k) == Edge(keep, calls, k)
  {
    assert (calls + [c])[..k] == calls[..k];
  }

  lemma ConnectedLater(keep: string -> bool, calls: seq<Call>, c: Call, x: string, y: string)
    requires Connected(keep, calls, x, y)
    ensures Connected(keep, calls + [c], x, y)
  {
    var p :| Path(keep, calls, p) && p[0] == x && p[|p| - 1] == y;
    forall i | 0 <= i < |p| - 1 ensures Adjacent(keep, calls + [c], p[i], p[i + 1]) {
      assert Adjacent(keep, calls, p[i], p[i + 1]);
      var k :| 0 <= k < |calls| && p[i] in Edge(keep, calls, k) && p[i + 1] in Edge(keep, calls, k);
      EdgePrefix(keep, calls, c, k);
    }
    assert Path(keep, calls + [c], p);
  }

  /** Exactly the identifiers some call registered have a group. */
  lemma {:induction false} OwnersAreKnown(keep: string -> bool, calls: seq<Call>)
    ensures Run(keep, calls).owner.Keys == Known(keep, calls)
  {
    if calls != [] {
      var init, c := calls[..|calls| - 1], calls[|calls| - 1];
      OwnersAreKnown(keep, init);
      var s := Run(keep, init);
      forall x ensures x in Run(keep, calls).owner <==> x in s.owner || x in OwnIds(keep, c) {
        if Members(c) != [] { LinkOwner(keep, s, c, x); } else { assert OwnIds(keep, c) <= ToSet(Members(c)); }
      }
    }
  }

  /** A drawn identifier is connected to what the call ties together. */
  lemma DrawnIsConnected(keep: string -> bool, calls: seq<Call>, c: Call, x: string) returns (e: string)
    requires Drawn(keep, Run(keep, calls), c, x) && Agrees(keep, calls)
    ensures e in Edge(keep, calls + [c], |calls|) && Connected(keep, calls + [c], x, e)
  {
    var s := Run(keep, calls);
    assert (calls + [c])[..|calls|] == calls;
    if x in OwnIds(keep, c) {
      e := x;
      ConnectedSelf(keep, calls + [c], x);
    } else {
      var k :| 0 <= k < |Members(c)| && Members(c)[k] in s.owner && s.owner[Members(c)[k]] == s.owner[x];
      e := Members(c)[k];
      OwnersAreKnown(keep, calls);
      ConnectedLater(keep, calls, c, x, e);
      assert e in Names(c) || e in c.ips;
    }
  }

  /** Two registered identifiers share a group exactly when a chain of calls connects them. */
  ghost predicate Agrees(keep: string -> bool, calls: seq<Call>) {
    var s := Run(keep, calls);
    forall x, y | x in s.owner && y in s.owner :: s.owner[x] == s.owner[y] <==> Connected(keep, calls, x, y)
  }

  lemma RunStep(keep: string -> bool, calls: seq<Call>, c: Call)
    ensures Run(keep, calls + [c]) == Link(keep, Run(keep, calls), c)
  {
    assert (calls + [c])[..|calls|] == calls;
  }

  /** Same group after one more call implies connected. */
  lemma SameIsConnected(keep: string -> bool, calls: seq<Call>, c: Call, x: string, y: string)
    requires Agrees(keep, calls)
    requires var s' := Run(keep, calls + [c]); x in s'.owner && y in s'.owner && s'.owner[x] == s'.owner[y]
    ensures Connected(keep, calls + [c], x, y)
  {
    var s := Run(keep, calls);
    RunStep(keep, calls, c);
    if Members(c) == [] {
      ConnectedLater(keep, calls, c, x, y);
    } else {
      LinkOwner(keep, s, c, x);
      LinkOwner(keep, s, c, y);
      if Drawn(keep, s, c, x) && Drawn(keep, s, c, y) {
        var ex := DrawnIsConnected(keep, calls, c, x);
        var ey := DrawnIsConnected(keep, calls, c, y);
        ConnectedByEdge(keep, calls + [c], |calls|, ex, ey);
        ConnectedBack(keep, calls + [c], y, ey);
        ConnectedJoin(keep, calls + [c], x, ex, ey);
        ConnectedJoin(keep, calls + [c], x, ey, y);
      } else {
        ConnectedLater(keep, calls, c, x, y);
      }
    }
  }

  /** Adjacent identifiers share a group after one more call. */
  lemma AdjacentIsSame(keep: string -> bool, calls: seq<Call>, c: Call, x: string, y: string)
    requires Agrees(keep, calls) && Adjacent(keep, calls + [c], x, y)
    ensures var s' := Run(keep, calls + [c]); x in s'.owner && y in s'.owner && s'.owner[x] == s'.owner[y]
  {
    var s := Run(keep, calls);
    var all := calls + [c];
    RunStep(keep, calls, c);
    OwnersAreKnown(keep, calls);
    var k :| 0 <= k < |all| && x in Edge(keep, all, k) && y in Edge(keep, all, k);
    if k < |calls| {
      EdgePrefix(keep, calls, c, k);
      EdgeIsKnown(keep, calls, k);
      ConnectedByEdge(keep, calls, k, x, y);
      if Members(c) != [] { StaySame(keep, s, c, x, y); }
    } else {
      assert all[..k] == calls && all[k] == c;
      EdgeIsDrawn(keep, s, calls, c, x);
      EdgeIsDrawn(keep, s, calls, c, y);
      LinkOwner(keep, s, c, x);
      LinkOwner(keep, s, c, y);
    }
  }

  lemma EdgeIsKnown(keep: string -> bool, calls: seq<Call>, k: nat)
    requires k < |calls|
    ensures Edge(keep, calls, k) <= Known(keep, calls)
  {
    KnownGrows(keep, calls, k);
    KnownGrows(keep, calls, k + 1);
    assert calls[..k + 1][..k] == calls[..k];
  }

  lemma {:induction false} KnownGrows(keep: string -> bool, calls: seq<Call>, k: nat)
    requires k <= |calls|
    ensures Known(keep, calls[..k]) <= Known(keep, calls)
    decreases |calls|
  {
    if k < |calls| {
      var init := calls[..|calls| - 1];
      KnownGrows(keep, init, k);
      assert init[..k] == calls[..k];
    } else {
      assert calls[..k] == calls;
    }
  }

  lemma EdgeIsDrawn(keep: string -> bool, s: State, calls: seq<Call>, c: Call, x: string)
    requires s.owner.Keys == Known(keep, calls)
    requires x in OwnIds(keep, c) || (x in c.ips && x in Known(keep, calls))
    ensures Members(c) != [] && Drawn(keep, s, c, x)
  {
    assert x in Members(c);
    var k :| 0 <= k < |Members(c)| && Members(c)[k] == x;
  }

  lemma StaySame(keep: string -> bool, s: State, c: Call, x: string, y: string)
    requires Good(s) && Members(c) != [] && x in s.owner && y in s.owner && s.owner[x] == s.owner[y]
    ensures var s' := Link(keep, s, c); x in s'.owner && y in s'.owner && s'.owner[x] == s'.owner[y]
  {
    LinkOwner(keep, s, c, x);
    LinkOwner(keep, s, c, y);
    SameTouched(s, Members(c), x, y);
    if x in OwnIds(keep, c) { OwnTouches(keep, s, c, x); }
    if y in OwnIds(keep, c) { OwnTouches(keep, s, c, y); }
  }

  lemma SameTouched(s: State, members: seq<string>, x: string, y: string)
    requires x in s.owner && y in s.owner && s.owner[x] == s.owner[y]
    ensures Touched(s, members, x) == Touched(s, members, y)
  {
  }

  lemma OwnTouches(keep: string -> bool, s: State, c: Call, x: string)
    requires x in OwnIds(keep, c) && x in s.owner
    ensures Touched(s, Members(c), x)
  {
    assert x in Members(c);
    var k :| 0 <= k < |Members(c)| && Members(c)[k] == x;
  }

  lemma {:induction false} PathIsSame(keep: string -> bool, calls: seq<Call>, c: Call, p: seq<string>)
    requires Agrees(keep, calls) && Path(keep, calls + [c], p) && p[0] in Run(keep, calls + [c]).owner
    ensures var s' := Run(keep, calls + [c]); p[|p| - 1] in s'.owner && s'.owner[p[|p| - 1]] == s'.owner[p[0]]
    decreases |p|
  {
    if |p| > 1 {
      var q := p[..|p| - 1];
      forall i | 0 <= i < |q| - 1 ensures Adjacent(keep, calls + [c], q[i], q[i + 1]) {
        assert q[i] == p[i] && q[i + 1] == p[i + 1];
      }
      PathIsSame(keep, calls, c, q);
      assert Adjacent(keep, calls + [c], p[|p| - 2], p[|p| - 1]);
      AdjacentIsSame(keep, calls, c, p[|p| - 2], p[|p| - 1]);
    }
  }

  /** Grouping equals connectivity, after any sequence of link calls. */
  lemma {:induction false} GroupingIsConnectivity(keep: string -> bool, calls: seq<Call>)
    ensures Agrees(keep, calls)
  {
    if calls != [] {
      var init, c := calls[..|calls| - 1], calls[|calls| - 1];
      assert calls == init + [c];
      GroupingIsConnectivity(keep, init);
      var s := Run(keep, calls);
      forall x, y | x in s.owner && y in s.owner ensures s.owner[x] == s.owner[y] <==> Connected(keep, calls, x, y) {
        if s.owner[x] == s.owner[y] {
          SameIsConnected(keep, init, c, x, y);
        } else if Connected(keep, calls, x, y) {
          var p :| Path(keep, calls, p) && p[0] == x && p[|p| - 1] == y;
          PathIsSame(keep, init, c, p);
        }
      }
    }
  }

  // ---- resolve ----

  /** Follow the merge chain; each pointer was set later than the one before. */
  function Resolve(s: State, i: nat): nat
    requires Chained(s) && i < |s.groups|
    decreases if s.groups[i].merged.Some? && s.groups[i].rank < s.clock then s.clock - s.groups[i].rank else 0
  {
    assert ChainedAt(s, i);
    if s.groups[i].merged.None? then i else Resolve(s, s.groups[i].merged.value)
  }

  /** resolve ends in the live group the chain leads to. */
  lemma {:induction false} ResolveIsRoot(s: State, i: nat)
    requires Chained(s) && i < |s.groups|
    ensures Resolve(s, i) == s.root[i] && LiveGroup(s, Resolve(s, i))
    decreases if s.groups[i].merged.Some? && s.groups[i].rank < s.clock then s.clock - s.groups[i].rank else 0
  {
    assert ChainedAt(s, i);
    if s.groups[i].merged.Some? { ResolveIsRoot(s, s.groups[i].merged.value); }
  }

  /** After any run, every group ever created resolves to a live one, whose key is the least of all merged into it. */
  lemma LabelKeyIsLeast(keep: string -> bool, calls: seq<Call>, i: nat)
    requires i < |Run(keep, calls).groups|
    ensures var s := Run(keep, calls);
            var g := Resolve(s, i);
            && LiveGroup(s, g) && s.groups[g].order <= i + 1 && !Less(s.born[i], s.groups[g].firstSeen)
            && (exists j | 0 <= j < |s.groups| :: Resolve(s, j) == g && s.groups[g].order == j + 1)
            && (exists j | 0 <= j < |s.groups| :: Resolve(s, j) == g && s.groups[g].firstSeen == s.born[j])
  {
    var s := Run(keep, calls);
    ResolveIsRoot(s, i);
    var g := Resolve(s, i);
    assert LowerAt(s, i) && AttainedAt(s, g);
    var j :| 0 <= j < |s.groups| && OrderFrom(s, g, j);
    var k :| 0 <= k < |s.groups| && SeenFrom(s, g, k);
    ResolveIsRoot(s, j);
    ResolveIsRoot(s, k);
  }

  /** Which of two groups survives a merge changes none of the three sets of identifiers, nor the label key. */
  lemma MergeDirectionIsIrrelevant(s: State, a: nat, b: nat)
    requires LiveGroup(s, a) && LiveGroup(s, b) && a != b
    ensures var x, y := MergeNodes(s, a, b).groups[a], MergeNodes(s, b, a).groups[b];
            && x.hostnames == y.hostnames && x.uuids == y.uuids && x.ips == y.ips
            && x.firstSeen == y.firstSeen && x.order == y.order
  {
    EarlierIsLeast(s.groups[a].firstSeen, s.groups[b].firstSeen);
  }
}
