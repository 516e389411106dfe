/**
 * The grouping structure as collectlogs builds it: node objects linked by merge
 * pointers, an owner map and a list of live nodes, each method proved against the
 * function of Grouping.dfy that specifies it.
 */
module Discovery {
  import opened Options
  import opened Strings
  import opened Grouping

  class Node {
    ghost const id: nat // creation index
    var hostnames: set<string>
    var uuids: set<string>
    var ips: set<string>
    var firstSeen: string
    var order: nat
    var merged: Node?
    ghost var rank: nat

    constructor (ghost id: nat, when: string, order: nat)
      ensures this.id == id && View() == Group({}, {}, {}, when, order, None, 0) && merged == null
    {
      this.id := id;
      hostnames, uuids, ips, firstSeen, this.order, merged, rank := {}, {}, {}, when, order, null, 0;
    }

    ghost function View(): Group
      reads this
    {
      Group(hostnames, uuids, ips, firstSeen, order, if merged == null then None else Some(merged.id), rank)
    }
  }

  ghost function IdsOf(ns: seq<Node>): seq<nat> {
    seq(|ns|, k requires 0 <= k < |ns| => ns[k].id)
  }

  ghost function OwnersOf(o: map<string, Node>): map<string, nat> {
    map m | m in o :: o[m].id
  }

  ghost function ViewsOf(ns: seq<Node>): seq<Group>
    reads ns
  {
    seq(|ns|, i requires 0 <= i < |ns| reads ns => ns[i].View())
  }

  /** The loop over a node's identifiers, pointing each one at `n`. */
  method PointAll(o: map<string, Node>, ids: set<string>, n: Node) returns (p: map<string, Node>)
    ensures p.Keys == o.Keys + ids && forall m | m in p :: p[m] == if m in ids then n else o[m]
  {
    p := o;
    var todo := ids;
    while todo != {}
      invariant todo <= ids
      invariant forall m :: m in p <==> m in o || (m in ids && m !in todo)
      invariant forall m | m in p :: if m in ids && m !in todo then p[m] == n else m in o && p[m] == o[m]
      decreases |todo|
    {
      var k :| k in todo;
      p := p[k := n];
      todo := todo - {k};
    }
  }

  lemma PointedOwners(o: map<string, Node>, p: map<string, Node>, ids: set<string>, n: Node)
    requires p.Keys == o.Keys + ids && forall m | m in p :: p[m] == if m in ids then n else o[m]
    ensures OwnersOf(p) == Reown(OwnersOf(o), ids, n.id)
  {
  }

  class Discovery {
    var nodes: seq<Node>
    var nodeOf: map<string, Node>
    var nodeSeq: nat
    ghost var all: seq<Node> // every node ever created
    ghost var root: seq<nat>
    ghost var born: seq<string>
    ghost var clock: nat

    ghost predicate Held(n: Node)
      reads this`all
    {
      n.id < |all| && all[n.id] == n
    }

    ghost predicate Numbered()
      reads this`all, this`nodeSeq, all
    {
      nodeSeq == |all| && forall i | 0 <= i < |all| :: all[i].id == i && (all[i].merged != null ==> Held(all[i].merged))
    }

    ghost predicate Listed()
      reads this`nodes, this`all
    {
      forall k | 0 <= k < |nodes| :: Held(nodes[k])
    }

    ghost predicate Owned()
      reads this`nodeOf, this`all
    {
      forall m | m in nodeOf :: Held(nodeOf[m])
    }

    ghost predicate Wf()
      reads this`nodes, this`nodeOf, this`all, this`nodeSeq, all
    {
      Numbered() && Listed() && Owned()
    }

    ghost function S(): State
      reads this, all
    {
      State(ViewsOf(all), OwnersOf(nodeOf), IdsOf(nodes), root, born, clock)
    }

    constructor ()
      ensures Wf() && S() == EMPTY
    {
      nodes, nodeOf, nodeSeq, all, root, born, clock := [], map[], 0, [], [], [], 0;
    }

    method NewNodeGroup(when: string) returns (n: Node)
      requires Wf()
      modifies this`nodeSeq, this`nodes, this`all, this`root, this`born
      ensures Wf() && S() == NewGroup(old(S()), when) && Held(n) && n.id == |old(all)| && fresh(n)
      ensures all == old(all) + [n]
    {
      ghost var s := S();
      nodeSeq := nodeSeq + 1;
      n := new Node(|all|, when, nodeSeq);
      nodes := nodes + [n];
      all := all + [n];
      root := root + [|s.groups|];
      born := born + [when];
      assert ViewsOf(all) == NewGroup(s, when).groups;
      assert IdsOf(nodes) == NewGroup(s, when).live;
    }

    /** Every identifier in `ids` points at `into`. */
    method TakeOver(ids: set<string>, into: Node)
      requires Owned() && Held(into)
      modifies this`nodeOf
      ensures Owned() && OwnersOf(nodeOf) == Reown(OwnersOf(old(nodeOf)), ids, into.id)
    {
      ghost var o := nodeOf;
      nodeOf := PointAll(nodeOf, ids, into);
      PointedOwners(o, nodeOf, ids, into);
    }

    /** The node leaves the list, at its first position. */
    method Unlist(n: Node)
      requires Listed() && Held(n)
      modifies this`nodes
      ensures Listed() && IdsOf(nodes) == Without(IdsOf(old(nodes)), n.id)
    {
      ghost var l := IdsOf(nodes);
      for i := 0 to |nodes|
        invariant nodes == old(nodes)
        invariant forall k | 0 <= k < i :: l[k] != n.id
      {
        assert Held(nodes[i]);
        if nodes[i] == n {
          WithoutAt(l, n.id, i);
          nodes := nodes[..i] + nodes[i + 1..];
          assert IdsOf(nodes) == l[..i] + l[i + 1..];
          return;
        }
      }
      WithoutAbsent(l, n.id);
    }

    /** The fields of `into` absorb those of `from`. */
    method Fold(into: Node, from: Node)
      requires into != from
      modifies into
      ensures into.View() == Absorb(old(into.View()), from.View()) && into.merged == old(into.merged)
    {
      into.hostnames := into.hostnames + from.hostnames;
      into.uuids := into.uuids + from.uuids;
      into.ips := into.ips + from.ips;
      if from.firstSeen == "" {
        into.firstSeen := "";
      } else if into.firstSeen != "" && Less(from.firstSeen, into.firstSeen) {
        into.firstSeen := from.firstSeen;
      }
      if from.order < into.order {
        into.order := from.order;
      }
    }

    /** `from` is folded into `into` and points at it. */
    method Bury(into: Node, from: Node, ghost s: State)
      requires Numbered() && Held(into) && Held(from) && into != from && s.groups == ViewsOf(all) && s.clock == clock
      modifies into, from
      ensures Numbered() && ViewsOf(all) == MergeNodes(s, into.id, from.id).groups
    {
      Fold(into, from);
      from.merged, from.rank := into, clock;
      Refolded(all, s, into, from);
    }

    /** The pointer work of a merge. */
    method Relink(into: Node, from: Node, ghost s: State)
      requires Wf() && Held(into) && Held(from) && into != from && s == S()
      modifies this`nodeOf, this`nodes, into, from
      ensures Numbered() && Listed() && Owned()
      ensures ViewsOf(all) == MergeNodes(s, into.id, from.id).groups
      ensures OwnersOf(nodeOf) == MergeNodes(s, into.id, from.id).owner
      ensures IdsOf(nodes) == MergeNodes(s, into.id, from.id).live
    {
      assert s.groups[from.id] == from.View();
      TakeOver(from.hostnames + from.uuids + from.ips, into);
      Bury(into, from, s);
      Unlist(from);
    }

    method MergeInto(into: Node, from: Node)
      requires Wf() && Held(into) && Held(from)
      modifies this`nodeOf, this`nodes, this`root, this`clock, into, from
      ensures Wf() && S() == MergeNodes(old(S()), into.id, from.id)
    {
      if into == from { return; }
      ghost var s := S();
      Relink(into, from, s);
      root := MergeNodes(s, into.id, from.id).root;
      clock := clock + 1;
    }

    static lemma Refolded(all: seq<Node>, s: State, into: Node, from: Node)
      requires into != from && |all| == |s.groups| && (forall i | 0 <= i < |all| :: all[i].id == i)
      requires into.id < |all| && all[into.id] == into && from.id < |all| && all[from.id] == from
      requires forall i | 0 <= i < |all| && all[i] != into && all[i] != from :: all[i].View() == s.groups[i]
      requires into.View() == Absorb(s.groups[into.id], s.groups[from.id])
      requires from.View() == s.groups[from.id].(merged := Some(into.id), rank := s.clock)
      ensures ViewsOf(all) == MergeNodes(s, into.id, from.id).groups
    {
    }

    /** The first loop of link: merge every group a member belongs to into the first one found. */
    method FindTarget(members: seq<string>) returns (target: Node?)
      requires Wf() && Good(S())
      modifies this`nodeOf, this`nodes, this`root, this`clock, all
      ensures Wf() && all == old(all) && (target != null ==> Held(target))
      ensures (S(), Index(target)) == Scan(old(S()), members, None)
    {
      ghost var s := S();
      target := null;
      assert members[0..] == members;
      for i := 0 to |members|
        invariant Wf() && all == old(all) && (target != null ==> Held(target))
        invariant Good(S()) && (target != null ==> LiveGroup(S(), target.id))
        invariant Scan(S(), members[i..], Index(target)) == Scan(s, members, None)
      {
        assert members[i..][0] == members[i] && members[i..][1..] == members[i + 1..];
        target := FoldMember(members[i], target);
      }
    }

    /** One turn of that loop. */
    method FoldMember(m: string, found: Node?) returns (target: Node?)
      requires Wf() && Good(S()) && (found != null ==> Held(found) && LiveGroup(S(), found.id))
      modifies this`nodeOf, this`nodes, this`root, this`clock, all
      ensures Wf() && all == old(all) && (target != null ==> Held(target))
      ensures (S(), Index(target)) == ScanOne(old(S()), m, Index(found))
    {
      target := found;
      if m in nodeOf {
        assert OwnedAt(S(), m);
        var n := nodeOf[m];
        if target == null {
          target := n;
        } else if target != n {
          MergeInto(target, n);
        }
      }
    }

    static ghost function Index(n: Node?): Option<nat> {
      if n == null then None else Some(n.id)
    }

    /** The addresses of a call that are not left in the clear. */
    static method OwnAddresses(keep: string -> bool, ips: seq<string>) returns (own: set<string>)
      ensures own == set ip | ip in ips && !keep(ip)
    {
      own := {};
      for i := 0 to |ips|
        invariant own == set ip | ip in ips[..i] && !keep(ip)
      {
        assert ips[..i + 1] == ips[..i] + [ips[i]];
        if !keep(ips[i]) {
          own := own + {ips[i]};
        }
      }
      assert ips[..|ips|] == ips;
    }

    /** The target lists the identifiers. */
    method Extend(n: Node, hostnames: set<string>, uuids: set<string>, ips: set<string>)
      requires Numbered() && Held(n)
      modifies n
      ensures Numbered()
      ensures ViewsOf(all) == Claim(State(old(ViewsOf(all)), map[], [], [], [], 0), n.id, hostnames, uuids, ips).groups
    {
      ghost var before := ViewsOf(all);
      n.hostnames := n.hostnames + hostnames;
      n.uuids := n.uuids + uuids;
      n.ips := n.ips + ips;
      assert forall i | 0 <= i < |all| && i != n.id :: all[i].View() == before[i];
    }

    method ClaimFor(n: Node, hostnames: set<string>, uuids: set<string>, ips: set<string>)
      requires Wf() && Held(n)
      modifies this`nodeOf, n
      ensures Wf() && S() == Claim(old(S()), n.id, hostnames, uuids, ips)
    {
      Extend(n, hostnames, uuids, ips);
      TakeOver(hostnames + uuids + ips, n);
    }

    /** The group link settles on: one the members belong to, or a new one. */
    method TargetFor(members: seq<string>, when: string) returns (n: Node)
      requires Wf() && Good(S())
      modifies this, all
      ensures Wf() && Held(n) && (S(), n.id) == Target(old(S()), Scan(old(S()), members, None), when)
      ensures fresh(n) || n in old(all)
    {
      var target := FindTarget(members);
      if target == null {
        n := NewNodeGroup(when);
      } else {
        n := target;
      }
    }

    /** link. */
    method LinkIds(keep: string -> bool, c: Call)
      requires Wf() && Good(S())
      modifies this, all
      ensures Wf() && S() == Link(keep, old(S()), c)
    {
      if c.hostnames + c.uuids + c.ips == [] { return; }
      var target := TargetFor(c.hostnames + c.uuids + c.ips, c.when);
      var own := OwnAddresses(keep, c.ips);
      ClaimFor(target, ToSet(c.hostnames), ToSet(c.uuids), own);
    }

    /** resolve: follow the merge pointers. */
    method ResolveNode(n: Node) returns (r: Node)
      requires Wf() && Chained(S()) && Held(n)
      ensures Held(r) && r.id == Resolve(S(), n.id) && r.merged == null
    {
      ghost var s := S();
      r := n;
      ResolveIsRoot(s, n.id);
      while r.merged != null
        invariant Held(r) && Resolve(s, r.id) == Resolve(s, n.id)
        decreases if s.groups[r.id].merged.Some? && s.groups[r.id].rank < s.clock then s.clock - s.groups[r.id].rank
                  else 0
      {
        assert ChainedAt(s, r.id) && s.groups[r.id] == r.View();
        r := r.merged;
      }
    }
  }
}
