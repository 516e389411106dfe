/**
 * The proxy's routing state and loops, each method proved against the functions of
 * Routing.dfy and Reservations.dfy, and the cooldown map those functions take as a
 * set of cooling nodes.
 */
module Proxy {
  import opened Options
  import opened Strings
  import opened Routing
  import opened Reservations

  // ---- Cooldown ----

  /** coolingSet: the nodes whose cooldown has not run out. */
  function Cooling(until: map<string, int>, now: int): set<string> {
    set id | id in until && now < until[id]
  }

  /** Its side effect: cooldowns that have run out are forgotten. */
  function Prune(until: map<string, int>, now: int): map<string, int> {
    map id | id in until && now < until[id] :: until[id]
  }

  /** Forgetting is invisible as long as the clock does not go back. */
  lemma PruneIsInvisible(until: map<string, int>, now: int, later: int)
    requires now <= later
    ensures Cooling(Prune(until, now), later) == Cooling(until, later)
  {
  }

  /** demoteCooling: one pass for the ready candidates, one for the cooling ones. */
  method DemoteCooling(cs: seq<Candidate>, cooling: set<string>) returns (out: seq<Candidate>)
    ensures out == Demote(cs, cooling)
  {
    if cooling == {} || |cs| < 2 {
      ShortOrReady(cs, cooling);
      return cs;
    }
    out := [];
    for i := 0 to |cs|
      invariant out == Ready(cs[..i], cooling, true)
    {
      assert cs[..i + 1][..i] == cs[..i];
      if cs[i].id !in cooling { out := out + [cs[i]]; }
    }
    assert cs[..|cs|] == cs;
    ghost var ready := out;
    for i := 0 to |cs|
      invariant out == ready + Ready(cs[..i], cooling, false)
    {
      assert cs[..i + 1][..i] == cs[..i];
      if cs[i].id in cooling { out := out + [cs[i]]; }
    }
  }

  lemma {:induction false} NoneDemoted(cs: seq<Candidate>)
    ensures Ready(cs, {}, false) == []
  {
    if cs != [] { NoneDemoted(cs[..|cs| - 1]); }
  }

  lemma {:induction false} NothingCools(cs: seq<Candidate>)
    ensures Demote(cs, {}) == cs
  {
    if cs != [] {
      NothingCools(cs[..|cs| - 1]);
      NoneDemoted(cs[..|cs| - 1]);
      NoneDemoted(cs);
      assert cs == cs[..|cs| - 1] + [cs[|cs| - 1]];
    }
  }

  lemma ShortOrReady(cs: seq<Candidate>, cooling: set<string>)
    requires cooling == {} || |cs| < 2
    ensures Demote(cs, cooling) == cs
  {
    if cooling == {} {
      NothingCools(cs);
    } else if |cs| == 1 {
      assert cs[..0] == [] && Ready([], cooling, true) == [] && Ready([], cooling, false) == [];
      assert Ready(cs, cooling, true) == if cs[0].id !in cooling then [cs[0]] else [];
      assert Ready(cs, cooling, false) == if cs[0].id !in cooling then [] else [cs[0]];
    }
  }

  // ---- Rotation in place ----

  /** The two copies of reserveCandidate: everything before `index` moves up, the choice goes in front. */
  method MoveToFront(a: array<Candidate>, index: nat)
    requires index < a.Length
    modifies a
    ensures a[..] == Rotate(old(a[..]), index)
  {
    ghost var was := a[..];
    var chosen := a[index];
    var k := index;
    while k > 0
      invariant 0 <= k <= index
      invariant forall j | 0 <= j < k :: a[j] == was[j]
      invariant forall j | k < j <= index :: a[j] == was[j - 1]
      invariant forall j | index < j < a.Length :: a[j] == was[j]
    {
      a[k] := a[k - 1];
      k := k - 1;
    }
    a[0] := chosen;
    var r := Rotate(was, index);
    assert |r| == |a[..]|;
    forall j | 0 <= j < a.Length ensures a[..][j] == r[j] {
      if 0 < j <= index { assert r[j] == was[j - 1]; }
    }
  }

  // ---- The proxy ----

  class Proxy {
    var selected: string
    var priority: seq<string>
    var pending: map<string, nat>
    var gpu: map<string, nat>
    var reserved: map<string, nat>
    var coolUntil: map<string, int>

    ghost function B(): Board
      reads this
    {
      Board(priority, pending, gpu, reserved)
    }

    constructor ()
      ensures B() == Snapshot([], []) && coolUntil == map[] && selected == ""
    {
      selected, priority, pending, gpu, reserved, coolUntil := "", [], map[], map[], map[], map[];
    }

    method NoteStalled(id: string, now: int, timeout: nat)
      modifies this`coolUntil
      ensures coolUntil == old(coolUntil)[id := now + timeout]
      ensures forall t | now <= t < now + timeout :: id in Cooling(coolUntil, t)
    {
      coolUntil := coolUntil[id := now + timeout];
    }

    method NoteSuccess(id: string)
      modifies this`coolUntil
      ensures coolUntil == old(coolUntil) - {id}
      ensures forall t :: Cooling(coolUntil, t) == Cooling(old(coolUntil), t) - {id}
    {
      coolUntil := coolUntil - {id};
    }

    method CoolingSet(now: int) returns (cooling: set<string>)
      modifies this`coolUntil
      ensures cooling == Cooling(old(coolUntil), now) && coolUntil == Prune(old(coolUntil), now)
    {
      cooling := {};
      ghost var m := coolUntil;
      var todo := coolUntil.Keys;
      while todo != {}
        invariant todo <= m.Keys
        invariant cooling == set id | id in m && id !in todo && now < m[id]
        invariant coolUntil == map id | id in m && (id in todo || now < m[id]) :: m[id]
        decreases |todo|
      {
        var id :| id in todo;
        if now < coolUntil[id] {
          cooling := cooling + {id};
        } else {
          coolUntil := coolUntil - {id};
        }
        todo := todo - {id};
      }
    }

    method SetPrioritySnapshot(nodes: seq<string>, ranks: seq<Rank>)
      modifies this`priority, this`pending, this`gpu, this`reserved
      ensures B() == Snapshot(nodes, ranks)
    {
      var p: map<string, nat>, g: map<string, nat> := map[], map[];
      for i := 0 to |ranks|
        invariant Board(nodes, p, g, map[]) == Snapshot(nodes, ranks[..i])
      {
        assert ranks[..i + 1][..i] == ranks[..i];
        var r := ranks[i];
        if r.id != "" {
          p := p[r.id := if r.pending < 0 then 0 else r.pending];
          g := g[r.id := if r.gpu < 0 then 0 else if r.gpu > MAX_GPU_PRESSURE then MAX_GPU_PRESSURE else r.gpu];
        }
      }
      assert ranks[..|ranks|] == ranks;
      priority, pending, gpu, reserved := nodes, p, g, map[];
    }

    /** The loop over the scheduler's order. */
    method FindBest(cs: seq<Candidate>, blocked: set<string>) returns (best: Option<string>)
      ensures best == Best(B(), cs, blocked, |priority|)
    {
      best := None;
      var bestLoad := 0;
      for order := 0 to |priority|
        invariant best == Best(B(), cs, blocked, order)
        invariant best.Some? ==> bestLoad == Load(B(), best.value)
      {
        var id := priority[order];
        if id !in blocked && Has(cs, id) {
          var load := Get(pending, id) + Get(gpu, id) + Get(reserved, id);
          if best.None? || load < bestLoad {
            best, bestLoad := Some(id), load;
          }
        }
      }
    }

    /** Pin, affinity hint, or least load, in that order. */
    method Choose(d: seq<Candidate>, warm: string, cooling: set<string>) returns (chosen: Option<string>)
      ensures chosen == Choice(B(), d, selected, warm, cooling)
    {
      if d == [] || (selected != "" && Has(d, selected)) { return None; }
      var blocked := if exists k | 0 <= k < |d| :: d[k].id !in cooling then cooling else {};
      if warm != "" && Has(d, warm) && warm !in blocked
         && Get(pending, warm) + Get(reserved, warm) <= 1 && Get(gpu, warm) < MAX_GPU_PRESSURE { return Some(warm); }
      chosen := FindBest(d, blocked);
    }

    /** reserveCandidateWithAffinity, on the request's own copy of the list. */
    method ReserveCandidate(cs: seq<Candidate>, warm: string, now: int) returns (out: array<Candidate>)
      modifies this`reserved, this`coolUntil
      ensures fresh(out)
      ensures B() == Reserve(old(B()), cs, selected, warm, Cooling(old(coolUntil), now)).0
      ensures out[..] == Reserve(old(B()), cs, selected, warm, Cooling(old(coolUntil), now)).1
    {
      ghost var b := B();
      var cooling := CoolingSet(now);
      var d := DemoteCooling(cs, cooling);
      assert B() == b;
      var chosen := Choose(d, warm, cooling);
      TakeSlot(d, chosen);
      out := Arrange(d, chosen);
    }

    /** The reservation is counted until the next snapshot. */
    method TakeSlot(d: seq<Candidate>, chosen: Option<string>)
      modifies this`reserved
      ensures B() == if chosen.Some? && Has(d, chosen.value) then Bump(old(B()), chosen.value) else old(B())
    {
      if chosen.Some? && Has(d, chosen.value) {
        reserved := reserved[chosen.value := Get(reserved, chosen.value) + 1];
      }
    }
  }

  /** The list a request walks: the chosen candidate first, the others in order. */
  method Arrange(d: seq<Candidate>, chosen: Option<string>) returns (out: array<Candidate>)
    ensures fresh(out)
    ensures out[..] == if chosen.Some? && Has(d, chosen.value) then Rotate(d, Position(d, chosen.value)) else d
  {
    out := new Candidate[|d|](i requires 0 <= i < |d| => d[i]);
    assert out[..] == d;
    if chosen.Some? && Has(d, chosen.value) {
      MoveToFront(out, Position(d, chosen.value));
    }
  }

  // ---- Resolving ----

  /** Every entry of a node map stands under its own id. */
  predicate KeyedById(nodes: map<string, Node>) {
    forall id | id in nodes :: nodes[id].id == id
  }

  /** Nodes: the subscribed nodes and the manual ones the relay does not also list, in any order. */
  method Nodes(subscribed: map<string, Node>, manual: map<string, Node>) returns (out: seq<Node>)
    requires KeyedById(subscribed) && KeyedById(manual)
    ensures DistinctIds(out)
    ensures forall n ::
            n in out <==> if n.id in subscribed then n == subscribed[n.id] else n.id in manual && n == manual[n.id]
  {
    out := ListNodes(subscribed, subscribed.Keys);
    var extra := ListNodes(manual, manual.Keys - subscribed.Keys);
    out := out + extra;
  }

  /** One range loop over a node map, for the ids in `ids`. */
  method ListNodes(nodes: map<string, Node>, ids: set<string>) returns (out: seq<Node>)
    requires KeyedById(nodes) && ids <= nodes.Keys
    ensures DistinctIds(out)
    ensures forall n :: n in out <==> n.id in ids && n == nodes[n.id]
  {
    out := [];
    var left := ids;
    while left != {}
      invariant left <= ids && DistinctIds(out)
      invariant forall n :: n in out <==> n.id in ids && n.id !in left && n == nodes[n.id]
      decreases |left|
    {
      var id :| id in left;
      assert forall k | 0 <= k < |out| :: out[k] in out;
      out, left := out + [nodes[id]], left - {id};
    }
  }

  method OwnersOf(nodes: seq<Node>, model: string) returns (owners: seq<Node>)
    ensures owners == Filter(nodes, model)
  {
    owners := [];
    for i := 0 to |nodes|
      invariant owners == Filter(nodes[..i], model)
    {
      assert nodes[..i + 1][..i] == nodes[..i];
      if model == "" || model in nodes[i].models { owners := owners + [nodes[i]]; }
    }
    assert nodes[..|nodes|] == nodes;
  }

  lemma HostAppend(out: seq<Candidate>, c: Candidate)
    ensures forall h :: HasHost(out + [c], h) <==> HasHost(out, h) || h == c.host
  {
    forall h ensures HasHost(out + [c], h) <==> HasHost(out, h) || h == c.host {
      if HasHost(out, h) {
        var k :| 0 <= k < |out| && out[k].host == h;
        assert (out + [c])[k] == out[k];
      }
      if h == c.host { assert (out + [c])[|out|] == c; }
    }
  }

  /** `add` over the ids in the order they are considered, with the placed ids and the hosts already taken. */
  method PlaceAll(env: Env, owners: seq<Node>, queue: seq<string>) returns (out: seq<Candidate>)
    ensures out == Place(env, owners, queue)
  {
    out := [];
    var placed: set<string>, seenHost: set<string> := {}, {};
    for i := 0 to |queue|
      invariant out == Place(env, owners, queue[..i])
      invariant placed == set id | id in queue[..i] && Lookup(owners, id).Some?
      invariant forall h :: h in seenHost <==> HasHost(out, h)
    {
      var id := queue[i];
      assert queue[..i + 1] == queue[..i] + [id] && queue[..i + 1][..i] == queue[..i];
      var n := Lookup(owners, id);
      if n.Some? && id !in placed {
        placed := placed + {id};
        var c := Route(env, n.value);
        if c.Some? && c.value.host !in seenHost {
          HostAppend(out, c.value);
          seenHost := seenHost + {c.value.host};
          out := out + [c.value];
        }
      }
    }
    assert queue[..|queue|] == queue;
  }

  /** resolveCandidates. */
  method ResolveCandidates(env: Env, nodes: seq<Node>, model: string, selected: string, priority: seq<string>,
          cooling: set<string>)
    returns (out: seq<Candidate>)
    ensures out == Resolve(env, nodes, model, selected, priority, cooling)
  {
    var owners := OwnersOf(nodes, model);
    owners := SortById(owners);
    out := PlaceAll(env, owners, Queue(owners, selected, priority));
    out := DemoteCooling(out, cooling);
  }
}
