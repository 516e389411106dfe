/**
 * Request routing in services/lmstudio-proxy: resolving the candidates for a model,
 * demoting nodes that are cooling down, and spreading bursts by reserving the least
 * loaded scheduler-listed candidate.
 */
module Routing {
  import opened Options
  import opened Strings

  datatype Node = Node(id: string, models: seq<string>, clusterUuid: string)

  datatype Candidate = Candidate(id: string, host: string, peerUuid: string)

  /** The answers resolveCandidates asks for: dial target, own listener, local backend, pins, manual entries. */
  datatype Env = Env(target: Node -> Option<string>, isSelf: string -> bool, local: Option<string>,
                     pinned: string -> bool, manual: string -> bool)

  // ---- Resolving ----

  predicate Owns(n: Node, model: string) {
    model == "" || model in n.models
  }

  /** Where a node may be reached: the local backend for itself, mTLS for a pinned peer, plain for a manual one. */
  function Route(env: Env, n: Node): Option<Candidate> {
    var u := env.target(n);
    if u.None? then None
    else if env.isSelf(u.value) then
      if env.local.None? || env.isSelf(env.local.value) then None else Some(Candidate(n.id, env.local.value, ""))
    else if env.pinned(n.clusterUuid) then Some(Candidate(n.id, u.value, n.clusterUuid))
    else if env.manual(n.id) then Some(Candidate(n.id, u.value, ""))
    else None
  }

  function Filter(nodes: seq<Node>, model: string): seq<Node> {
    if nodes == [] then []
    else
      var f := Filter(nodes[..|nodes| - 1], model);
      if Owns(nodes[|nodes| - 1], model) then f + [nodes[|nodes| - 1]] else f
  }

  /** Insertion into a list ordered by id. */
  function Insert(n: Node, s: seq<Node>): seq<Node> {
    if s == [] || !Less(n.id, s[|s| - 1].id) then s + [n] else Insert(n, s[..|s| - 1]) + [s[|s| - 1]]
  }

  function SortById(s: seq<Node>): seq<Node> {
    if s == [] then [] else Insert(s[|s| - 1], SortById(s[..|s| - 1]))
  }

  function Ids(s: seq<Node>): seq<string> {
    seq(|s|, i requires 0 <= i < |s| => s[i].id)
  }

  predicate DistinctIds(s: seq<Node>) {
    forall i, j | 0 <= i < j < |s| :: s[i].id != s[j].id
  }

  function Lookup(s: seq<Node>, id: string): (r: Option<Node>)
    ensures r.Some? ==> r.value in s && r.value.id == id
    ensures r.None? ==> forall k | 0 <= k < |s| :: s[k].id != id
  {
    if s == [] then None
    else if s[|s| - 1].id == id then Some(s[|s| - 1])
    else Lookup(s[..|s| - 1], id)
  }

  predicate HasHost(out: seq<Candidate>, host: string) {
    exists k | 0 <= k < |out| :: out[k].host == host
  }

  /** The order in which ids are considered: the selection, the scheduler's list, then every owner by id. */
  function Queue(owners: seq<Node>, selected: string, priority: seq<string>): seq<string> {
    (if selected != "" then [selected] else []) + priority + Ids(owners)
  }

  /** `add` over the queue: each known id once, each host once. */
  function Place(env: Env, owners: seq<Node>, queue: seq<string>): seq<Candidate> {
    if queue == [] then []
    else
      var init, id := queue[..|queue| - 1], queue[|queue| - 1];
      var out := Place(env, owners, init);
      var n := Lookup(owners, id);
      if id in init || n.None? then out
      else
        var c := Route(env, n.value);
        if c.None? || HasHost(out, c.value.host) then out else out + [c.value]
  }

  /** demoteCooling: ready candidates first, then the cooling ones. */
  function Ready(cs: seq<Candidate>, cooling: set<string>, wanted: bool): seq<Candidate> {
    if cs == [] then []
    else
      var r := Ready(cs[..|cs| - 1], cooling, wanted);
      if (cs[|cs| - 1].id !in cooling) == wanted then r + [cs[|cs| - 1]] else r
  }

  function Demote(cs: seq<Candidate>, cooling: set<string>): seq<Candidate> {
    Ready(cs, cooling, true) + Ready(cs, cooling, false)
  }

  /** resolveCandidates. */
  function Resolve(env: Env, nodes: seq<Node>, model: string, selected: string, priority: seq<string>,
          cooling: set<string>): seq<Candidate>
  {
    var owners := SortById(Filter(nodes, model));
    Demote(Place(env, owners, Queue(owners, selected, priority)), cooling)
  }

  // ---- Sorting keeps the nodes ----

  lemma {:induction false} InsertHas(n: Node, s: seq<Node>)
    ensures multiset(Insert(n, s)) == multiset(s) + multiset{n}
  {
    if s != [] && Less(n.id, s[|s| - 1].id) {
      InsertHas(n, s[..|s| - 1]);
      assert s == s[..|s| - 1] + [s[|s| - 1]];
    }
  }

  lemma {:induction false} SortHas(s: seq<Node>)
    ensures multiset(SortById(s)) == multiset(s)
  {
    if s != [] {
      SortHas(s[..|s| - 1]);
      InsertHas(s[|s| - 1], SortById(s[..|s| - 1]));
      assert s == s[..|s| - 1] + [s[|s| - 1]];
    }
  }

  predicate OrderedById(s: seq<Node>) {
    forall i, j | 0 <= i < j < |s| :: !Less(s[j].id, s[i].id)
  }

  lemma {:induction false} InsertOrdered(n: Node, s: seq<Node>)
    requires OrderedById(s)
    ensures OrderedById(Insert(n, s))
  {
    if s == [] {
    } else {
      var init, last := s[..|s| - 1], s[|s| - 1];
      if Less(n.id, last.id) {
        InsertOrdered(n, init);
        var r := Insert(n, init);
        forall k | 0 <= k < |r| ensures !Less(last.id, r[k].id) {
          InsertHas(n, init);
          assert r[k] in multiset(r);
          assert r[k] == n || r[k] in init;
          if Less(last.id, n.id) { LessTransitive(n.id, last.id, n.id); LessIrreflexive(n.id); }
        }
      } else {
        forall k | 0 <= k < |s| ensures !Less(n.id, s[k].id) {
          LessTotal(s[k].id, last.id);
          if Less(n.id, s[k].id) && Less(s[k].id, last.id) { LessTransitive(n.id, s[k].id, last.id); }
        }
      }
    }
  }

  lemma {:induction false} SortOrdered(s: seq<Node>)
    ensures OrderedById(SortById(s))
  {
    if s != [] {
      SortOrdered(s[..|s| - 1]);
      InsertOrdered(s[|s| - 1], SortById(s[..|s| - 1]));
    }
  }

  lemma {:induction false} FilterOwns(nodes: seq<Node>, model: string)
    ensures forall n :: n in Filter(nodes, model) <==> n in nodes && Owns(n, model)
    ensures DistinctIds(nodes) ==> DistinctIds(Filter(nodes, model))
  {
    if nodes != [] {
      var init, last := nodes[..|nodes| - 1], nodes[|nodes| - 1];
      FilterOwns(init, model);
      assert nodes == init + [last];
      if DistinctIds(nodes) {
        var f := Filter(init, model);
        forall k | 0 <= k < |f| ensures f[k].id != last.id { assert f[k] in init; }
      }
    }
  }

  /** The owners, each once and in id order. */
  lemma OwnersSorted(nodes: seq<Node>, model: string)
    requires DistinctIds(nodes)
    ensures var owners := SortById(Filter(nodes, model));
            && OrderedById(owners) && DistinctIds(owners)
            && forall n :: n in owners <==> n in nodes && (model == "" || model in n.models)
  {
    var f := Filter(nodes, model);
    var owners := SortById(f);
    FilterOwns(nodes, model);
    SortOrdered(f);
    SortHas(f);
    forall n ensures n in owners <==> n in f {
      assert n in owners <==> n in multiset(owners);
      assert n in f <==> n in multiset(f);
    }
    forall i, j | 0 <= i < j < |owners| ensures owners[i].id != owners[j].id { SortedDistinct(f, i, j); }
  }

  lemma SortedDistinct(f: seq<Node>, i: nat, j: nat)
    requires DistinctIds(f) && i < j < |SortById(f)|
    ensures SortById(f)[i].id != SortById(f)[j].id
  {
    var s := SortById(f);
    SortHas(f);
    if s[i].id == s[j].id {
      assert s[i] in multiset(f) && s[j] in multiset(f);
      assert s[i] in f && s[j] in f;
      var a :| 0 <= a < |f| && f[a] == s[i];
      var b :| 0 <= b < |f| && f[b] == s[j];
      assert a == b;
      TwiceInSeq(s, i, j);
      OnceInSeq(f, a);
    }
  }

  lemma TwiceInSeq(s: seq<Node>, i: nat, j: nat)
    requires i < j < |s| && s[i] == s[j]
    ensures multiset(s)[s[i]] >= 2
  {
    assert s == s[..i] + [s[i]] + s[i + 1..j] + [s[j]] + s[j + 1..];
  }

  lemma OnceInSeq(f: seq<Node>, a: nat)
    requires DistinctIds(f) && a < |f|
    ensures multiset(f)[f[a]] == 1
  {
    assert f == f[..a] + [f[a]] + f[a + 1..];
    assert f[a] !in f[..a] && f[a] !in f[a + 1..];
  }

  // ---- The candidate list ----

  function First(q: seq<string>, id: string): (i: nat)
    ensures i <= |q| && (i < |q| ==> q[i] == id) && (i == |q| <==> id !in q) && forall k | 0 <= k < i :: q[k] != id
  {
    if q == [] || q[0] == id then 0 else 1 + First(q[1..], id)
  }

  lemma FirstIs(q: seq<string>, id: string, k: nat)
    requires k < |q| && q[k] == id && forall j | 0 <= j < k :: q[j] != id
    ensures First(q, id) == k
  {
  }

  lemma FirstPrefix(q: seq<string>, last: string, id: string)
    ensures First(q + [last], id) == if id in q then First(q, id) else if id == last then |q| else |q| + 1
  {
    var all := q + [last];
    if id in q {
      assert forall j | 0 <= j < First(q, id) :: all[j] == q[j];
      FirstIs(all, id, First(q, id));
    } else if id == last {
      assert forall j | 0 <= j < |q| :: all[j] == q[j];
      FirstIs(all, id, |q|);
    } else {
      assert id !in all;
    }
  }

  /** An entry is an owner reached the way its route says. */
  ghost predicate Routed(env: Env, owners: seq<Node>, c: Candidate) {
    exists n | n in owners :: n.id == c.id && Route(env, n) == Some(c)
  }

  lemma {:induction false} PlaceSound(env: Env, owners: seq<Node>, queue: seq<string>)
    ensures forall c | c in Place(env, owners, queue) :: c.id in queue && Routed(env, owners, c)
  {
    if queue != [] {
      var init := queue[..|queue| - 1];
      PlaceSound(env, owners, init);
      assert queue == init + [queue[|queue| - 1]];
    }
  }

  lemma {:induction false} PlaceDistinct(env: Env, owners: seq<Node>, queue: seq<string>)
    ensures var out := Place(env, owners, queue);
            forall i, j | 0 <= i < j < |out| ::
              out[i].host != out[j].host && First(queue, out[i].id) < First(queue, out[j].id)
  {
    if queue != [] {
      var init, id := queue[..|queue| - 1], queue[|queue| - 1];
      PlaceDistinct(env, owners, init);
      PlaceSound(env, owners, init);
      var before, out := Place(env, owners, init), Place(env, owners, queue);
      assert queue == init + [id];
      PlaceLast(env, owners, queue);
      forall i, j | 0 <= i < j < |out|
        ensures out[i].host != out[j].host && First(queue, out[i].id) < First(queue, out[j].id)
      {
        assert out[i] == before[i] && before[i] in before;
        FirstPrefix(init, id, out[i].id);
        FirstPrefix(init, id, out[j].id);
        if j < |before| { assert out[j] == before[j] && before[j] in before; }
      }
    }
  }

  lemma PlaceLast(env: Env, owners: seq<Node>, queue: seq<string>)
    requires queue != []
    ensures var init, id := queue[..|queue| - 1], queue[|queue| - 1];
            var before, out := Place(env, owners, init), Place(env, owners, queue);
            out == before
              || (|out| == |before| + 1 && out[..|before|] == before && out[|before|].id == id && id !in init
                              && forall k | 0 <= k < |before| :: before[k].host != out[|before|].host)
  {
  }

  lemma {:induction false} PlaceCovers(env: Env, owners: seq<Node>, queue: seq<string>, n: Node)
    requires DistinctIds(owners) && n in owners && n.id in queue && Route(env, n).Some?
    ensures HasHost(Place(env, owners, queue), Route(env, n).value.host)
  {
    var init, id := queue[..|queue| - 1], queue[|queue| - 1];
    assert queue == init + [id];
    var before, out := Place(env, owners, init), Place(env, owners, queue);
    if n.id in init {
      PlaceCovers(env, owners, init, n);
      var k :| 0 <= k < |before| && before[k].host == Route(env, n).value.host;
      assert out[k] == before[k];
    } else {
      LookupFinds(owners, n);
      if !HasHost(before, Route(env, n).value.host) { assert out[|before|] == Route(env, n).value; }
    }
  }

  lemma LookupFinds(owners: seq<Node>, n: Node)
    requires DistinctIds(owners) && n in owners
    ensures Lookup(owners, n.id) == Some(n)
  {
    var k :| 0 <= k < |owners| && owners[k] == n;
    var r := Lookup(owners, n.id);
    var j :| 0 <= j < |owners| && owners[j] == r.value;
  }

  /** a comes before b: selection first, then the scheduler's order, then the id. */
  predicate Before(selected: string, priority: seq<string>, a: string, b: string) {
    && !(selected != "" && b == selected)
    && ((selected != "" && a == selected)
        || (b in priority && a in priority && First(priority, a) < First(priority, b))
        || (b !in priority && (a in priority || Less(a, b))))
  }

  lemma QueueAt(head: seq<string>, priority: seq<string>, ids: seq<string>, x: string)
    ensures First(head + priority + ids, x) ==
            if x in head then First(head, x)
            else if x in priority then |head| + First(priority, x)
            else |head| + |priority| + First(ids, x)
  {
    FirstSplit(head, priority + ids, x);
    FirstSplit(priority, ids, x);
    assert head + priority + ids == head + (priority + ids);
  }

  lemma FirstSplit(p: seq<string>, q: seq<string>, id: string)
    ensures First(p + q, id) == if id in p then First(p, id) else |p| + First(q, id)
  {
    var all := p + q;
    if id in p {
      assert forall j | 0 <= j < First(p, id) :: all[j] == p[j];
      FirstIs(all, id, First(p, id));
    } else if id in q {
      var k := First(q, id);
      assert all[|p| + k] == q[k];
      forall j | 0 <= j < |p| + k ensures all[j] != id {
        if j < |p| { assert all[j] == p[j]; } else { assert all[j] == q[j - |p|]; }
      }
      FirstIs(all, id, |p| + k);
    } else {
      assert id !in all;
    }
  }

  lemma QueueOrder(owners: seq<Node>, selected: string, priority: seq<string>, a: string, b: string)
    requires OrderedById(owners) && DistinctIds(owners) && a in Ids(owners) && b in Ids(owners)
    requires First(Queue(owners, selected, priority), a) < First(Queue(owners, selected, priority), b)
    ensures Before(selected, priority, a, b)
  {
    var head := if selected != "" then [selected] else [];
    QueueAt(head, priority, Ids(owners), a);
    QueueAt(head, priority, Ids(owners), b);
    if a !in head && b !in head && a !in priority && b !in priority {
      IdOrder(owners, a, b);
    }
  }

  lemma IdOrder(owners: seq<Node>, a: string, b: string)
    requires OrderedById(owners) && a in Ids(owners) && b in Ids(owners)
    requires First(Ids(owners), a) < First(Ids(owners), b)
    ensures Less(a, b)
  {
    var i, j := First(Ids(owners), a), First(Ids(owners), b);
    assert owners[i].id == a && owners[j].id == b && Ids(owners)[i] != b;
    LessTotal(a, b);
  }

  // ---- The stable partition ----

  lemma {:induction false} ReadyMeans(cs: seq<Candidate>, cooling: set<string>, wanted: bool)
    ensures forall c :: c in Ready(cs, cooling, wanted) <==> c in cs && (c.id !in cooling) == wanted
  {
    if cs != [] {
      ReadyMeans(cs[..|cs| - 1], cooling, wanted);
      assert cs == cs[..|cs| - 1] + [cs[|cs| - 1]];
    }
  }

  lemma {:induction false} DemotePermutes(cs: seq<Candidate>, cooling: set<string>)
    ensures multiset(Demote(cs, cooling)) == multiset(cs)
  {
    if cs != [] {
      DemotePermutes(cs[..|cs| - 1], cooling);
      assert cs == cs[..|cs| - 1] + [cs[|cs| - 1]];
    }
  }

  /** Each half keeps the relative order: it is the list with the other half left out. */
  ghost predicate Subsequence(s: seq<Candidate>, t: seq<Candidate>, at: seq<nat>) {
    && |at| == |s| && (forall k | 0 <= k < |at| :: at[k] < |t| && t[at[k]] == s[k])
    && (forall j, k | 0 <= j < k < |at| :: at[j] < at[k])
  }

  lemma {:induction false} ReadyIsSubsequence(cs: seq<Candidate>, cooling: set<string>, wanted: bool)
    returns (at: seq<nat>)
    ensures Subsequence(Ready(cs, cooling, wanted), cs, at)
  {
    if cs == [] {
      at := [];
    } else {
      var init := cs[..|cs| - 1];
      at := ReadyIsSubsequence(init, cooling, wanted);
      if (cs[|cs| - 1].id !in cooling) == wanted { at := at + [|cs| - 1]; }
    }
  }

  /** Pairwise facts about two entries survive the partition for two of the same kind. */
  lemma DemoteKeepsPairs(cs: seq<Candidate>, cooling: set<string>, i: nat, j: nat) returns (a: nat, b: nat)
    requires i < j < |Demote(cs, cooling)|
    ensures var d := Demote(cs, cooling);
            && a < |cs| && b < |cs| && a != b && cs[a] == d[i] && cs[b] == d[j]
            && (d[i].id in cooling ==> d[j].id in cooling)
            && ((d[i].id in cooling <==> d[j].id in cooling) ==> a < b)
  {
    var ready, rest := Ready(cs, cooling, true), Ready(cs, cooling, false);
    var p := ReadyIsSubsequence(cs, cooling, true);
    var q := ReadyIsSubsequence(cs, cooling, false);
    ReadyMeans(cs, cooling, true);
    ReadyMeans(cs, cooling, false);
    var d := Demote(cs, cooling);
    a := if i < |ready| then p[i] else q[i - |ready|];
    b := if j < |ready| then p[j] else q[j - |ready|];
    assert i < |ready| ==> d[i] == ready[i] && ready[i] in ready;
    assert i >= |ready| ==> d[i] == rest[i - |ready|] && rest[i - |ready|] in rest;
    assert j < |ready| ==> d[j] == ready[j] && ready[j] in ready;
    assert j >= |ready| ==> d[j] == rest[j - |ready|] && rest[j - |ready|] in rest;
  }

  /**
   * The candidate list is sound: distinct ids and hosts, every entry an owner of the model reached
   * as itself, as a pinned peer or as a manual node, none of them this proxy's own listener; and it
   * is ordered: ready before cooling, and within each by selection, scheduler order, then id.
   */
  lemma ResolveSound(env: Env, nodes: seq<Node>, model: string, selected: string, priority: seq<string>,
          cooling: set<string>)
    requires DistinctIds(nodes)
    ensures var out := Resolve(env, nodes, model, selected, priority, cooling);
            && (forall k | 0 <= k < |out| :: Sound(env, nodes, model, out[k]))
            && (forall i, j | 0 <= i < j < |out| ::
                  && out[i].id != out[j].id && out[i].host != out[j].host
                  && (out[i].id in cooling ==> out[j].id in cooling)
                  && ((out[i].id in cooling <==> out[j].id in cooling)
                      ==> Before(selected, priority, out[i].id, out[j].id)))
  {
    var owners := SortById(Filter(nodes, model));
    var queue := Queue(owners, selected, priority);
    var placed := Place(env, owners, queue);
    var out := Resolve(env, nodes, model, selected, priority, cooling);
    OwnersSorted(nodes, model);
    PlaceSound(env, owners, queue);
    DemotePermutes(placed, cooling);
    forall k | 0 <= k < |out| ensures Sound(env, nodes, model, out[k]) {
      assert out[k] in multiset(out);
      assert out[k] in placed;
      EntrySound(env, nodes, model, owners, out[k]);
    }
    forall i, j | 0 <= i < j < |out|
      ensures out[i].id != out[j].id && out[i].host != out[j].host && (out[i].id in cooling ==> out[j].id in cooling)
              && ((out[i].id in cooling <==> out[j].id in cooling) ==> Before(selected, priority, out[i].id, out[j].id))
    {
      var a, b := DemoteKeepsPairs(placed, cooling, i, j);
      if a < b {
        OrderOf(env, owners, selected, priority, placed, a, b);
      } else {
        OrderOf(env, owners, selected, priority, placed, b, a);
      }
    }
  }

  lemma EntrySound(env: Env, nodes: seq<Node>, model: string, owners: seq<Node>, c: Candidate)
    requires Routed(env, owners, c) && forall n | n in owners :: n in nodes && Owns(n, model)
    ensures Sound(env, nodes, model, c)
  {
  }

  lemma OrderOf(env: Env, owners: seq<Node>, selected: string, priority: seq<string>, placed: seq<Candidate>, a: nat,
          b: nat)
    requires placed == Place(env, owners, Queue(owners, selected, priority)) && OrderedById(owners)
    requires DistinctIds(owners) && a < b < |placed|
    ensures placed[a].id != placed[b].id && placed[a].host != placed[b].host
    ensures Before(selected, priority, placed[a].id, placed[b].id)
  {
    var queue := Queue(owners, selected, priority);
    PlaceSound(env, owners, queue);
    PlaceDistinct(env, owners, queue);
    assert placed[a] in placed && placed[b] in placed;
    IdListed(env, owners, placed[a]);
    IdListed(env, owners, placed[b]);
    QueueOrder(owners, selected, priority, placed[a].id, placed[b].id);
  }

  lemma IdListed(env: Env, owners: seq<Node>, c: Candidate)
    requires Routed(env, owners, c)
    ensures c.id in Ids(owners)
  {
    var n :| n in owners && n.id == c.id && Route(env, n) == Some(c);
    var k :| 0 <= k < |owners| && owners[k] == n;
    assert Ids(owners)[k] == c.id;
  }

  /**
   * An entry: an owner, and not this proxy's own listener. The node itself is reached through the local
   * backend; a pinned peer always under its cluster identity; a manual node in the clear only without a pin.
   */
  ghost predicate Sound(env: Env, nodes: seq<Node>, model: string, c: Candidate) {
    && !env.isSelf(c.host)
    && exists n | n in nodes ::
         && n.id == c.id && Owns(n, model) && env.target(n).Some?
         && ((env.isSelf(env.target(n).value) && env.local == Some(c.host) && c.peerUuid == "")
             || (env.target(n) == Some(c.host) && env.pinned(n.clusterUuid) && c.peerUuid == n.clusterUuid)
             || (env.target(n) == Some(c.host) && !env.pinned(n.clusterUuid) && env.manual(n.id) && c.peerUuid == ""))
  }

  /** The node can be reached at this host. */
  predicate ReachedAt(env: Env, n: Node, host: string) {
    && env.target(n).Some?
    && if env.isSelf(env.target(n).value) then env.local == Some(host) && !env.isSelf(host)
       else env.target(n) == Some(host) && (env.pinned(n.clusterUuid) || env.manual(n.id))
  }

  /** And complete: the host of every owner that can be reached is on the list. */
  lemma ResolveComplete(env: Env, nodes: seq<Node>, model: string, selected: string, priority: seq<string>,
          cooling: set<string>, n: Node, host: string)
    requires DistinctIds(nodes) && n in nodes && Owns(n, model) && ReachedAt(env, n, host)
    ensures HasHost(Resolve(env, nodes, model, selected, priority, cooling), host)
  {
    var owners := SortById(Filter(nodes, model));
    var queue := Queue(owners, selected, priority);
    OwnersSorted(nodes, model);
    var k :| 0 <= k < |owners| && owners[k] == n;
    assert Ids(owners)[k] == n.id;
    PlaceCovers(env, owners, queue, n);
    var placed := Place(env, owners, queue);
    var i :| 0 <= i < |placed| && placed[i].host == Route(env, n).value.host;
    DemotePermutes(placed, cooling);
    assert placed[i] in multiset(Demote(placed, cooling));
    var d := Demote(placed, cooling);
    var j :| 0 <= j < |d| && d[j] == placed[i];
  }
}
