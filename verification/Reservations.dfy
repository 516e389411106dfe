/**
 * Optimistic reservations between scheduler snapshots (services/lmstudio-proxy):
 * every dispatch moves the least loaded scheduler-listed candidate to the front and
 * counts against it until the next snapshot, so a burst spreads.
 */
module Reservations {
  import opened Options
  import opened Routing

  const MAX_GPU_PRESSURE := 3

  /** The scheduler's last snapshot, and the dispatches made since. */
  datatype Board = Board(priority: seq<string>, pending: map<string, nat>, gpu: map<string, nat>,
                         reserved: map<string, nat>)

  function Get(m: map<string, nat>, id: string): nat {
    if id in m then m[id] else 0
  }

  function Load(b: Board, id: string): nat {
    Get(b.pending, id) + Get(b.gpu, id) + Get(b.reserved, id)
  }

  function Bump(b: Board, id: string): Board {
    b.(reserved := b.reserved[id := Get(b.reserved, id) + 1])
  }

  predicate Has(cs: seq<Candidate>, id: string) {
    exists k | 0 <= k < |cs| :: cs[k].id == id
  }

  /** The position the index map holds for an id: its last occurrence. */
  function Position(cs: seq<Candidate>, id: string): (i: nat)
    requires Has(cs, id)
    ensures i < |cs| && cs[i].id == id && forall k | i < k < |cs| :: cs[k].id != id
  {
    if cs[|cs| - 1].id == id then |cs| - 1 else Position(cs[..|cs| - 1], id)
  }

  /** The i-th entry in front, the others in order. */
  function Rotate(cs: seq<Candidate>, i: nat): seq<Candidate>
    requires i < |cs|
  {
    [cs[i]] + cs[..i] + cs[i + 1..]
  }

  /** A candidate the scheduler lists and that may be chosen. */
  predicate Listed(b: Board, cs: seq<Candidate>, blocked: set<string>, id: string) {
    id in b.priority && Has(cs, id) && id !in blocked
  }

  /** The least loaded listed candidate among the first n of the scheduler's order. */
  function Best(b: Board, cs: seq<Candidate>, blocked: set<string>, n: nat): Option<string>
    requires n <= |b.priority|
  {
    if n == 0 then None
    else
      var best, id := Best(b, cs, blocked, n - 1), b.priority[n - 1];
      if id in blocked || !Has(cs, id) then best
      else if best.None? || Load(b, id) < Load(b, best.value) then Some(id)
      else best
  }

  predicate WarmOk(b: Board, cs: seq<Candidate>, warm: string, blocked: set<string>) {
    warm != "" && Has(cs, warm) && warm !in blocked
    && Get(b.pending, warm) + Get(b.reserved, warm) <= 1 && Get(b.gpu, warm) < MAX_GPU_PRESSURE
  }

  /** Cooling nodes are passed over while some candidate is ready. */
  function Blocked(cs: seq<Candidate>, cooling: set<string>): set<string> {
    if exists k | 0 <= k < |cs| :: cs[k].id !in cooling then cooling else {}
  }

  /** The candidate a request is dispatched to, when one is reserved. */
  function Choice(b: Board, cs: seq<Candidate>, selected: string, warm: string, cooling: set<string>): Option<string> {
    if cs == [] || (selected != "" && Has(cs, selected)) then None
    else if WarmOk(b, cs, warm, Blocked(cs, cooling)) then Some(warm)
    else Best(b, cs, Blocked(cs, cooling), |b.priority|)
  }

  /** reserveCandidateWithAffinity. */
  function Reserve(b: Board, cs: seq<Candidate>, selected: string, warm: string,
          cooling: set<string>): (Board, seq<Candidate>)
  {
    var d := Demote(cs, cooling);
    var c := Choice(b, d, selected, warm, cooling);
    if c.Some? && Has(d, c.value) then (Bump(b, c.value), Rotate(d, Position(d, c.value))) else (b, d)
  }

  // ---- The snapshot ----

  datatype Rank = Rank(id: string, pending: int, gpu: int)

  function ClampPending(p: int): nat {
    if p < 0 then 0 else p
  }

  function ClampGpu(g: int): nat {
    if g < 0 then 0 else if g > MAX_GPU_PRESSURE then MAX_GPU_PRESSURE else g
  }

  /** SetPrioritySnapshot: a later rank for an id replaces an earlier one. */
  function Snapshot(priority: seq<string>, ranks: seq<Rank>): Board {
    if ranks == [] then Board(priority, map[], map[], map[])
    else
      var b, r := Snapshot(priority, ranks[..|ranks| - 1]), ranks[|ranks| - 1];
      if r.id == "" then b
      else b.(pending := b.pending[r.id := ClampPending(r.pending)], gpu := b.gpu[r.id := ClampGpu(r.gpu)])
  }

  /** The rank at k is the last one the scheduler sent for its id. */
  predicate LastFor(ranks: seq<Rank>, k: nat, id: string)
    requires k < |ranks|
  {
    ranks[k].id == id && forall j | k < j < |ranks| :: ranks[j].id != id
  }

  /** A snapshot starts without reservations, and at zero for an id the scheduler sent no rank for. */
  lemma {:induction false} SnapshotIsFresh(priority: seq<string>, ranks: seq<Rank>, id: string)
    requires id == "" || forall k | 0 <= k < |ranks| :: ranks[k].id != id
    ensures var b := Snapshot(priority, ranks); b.priority == priority && b.reserved == map[] && Load(b, id) == 0
  {
    if ranks != [] {
      var init := ranks[..|ranks| - 1];
      assert forall k | 0 <= k < |init| :: init[k] == ranks[k];
      SnapshotIsFresh(priority, init, id);
    }
  }

  /** The last rank of an id decides its load: pending requests, not negative, and GPU pressure, clamped to 0..3. */
  lemma {:induction false} SnapshotTakesLast(priority: seq<string>, ranks: seq<Rank>, k: nat)
    requires k < |ranks| && ranks[k].id != "" && LastFor(ranks, k, ranks[k].id)
    ensures var b, r := Snapshot(priority, ranks), ranks[k];
            && b.priority == priority && b.reserved == map[]
            && Get(b.pending, r.id) == ClampPending(r.pending) && Get(b.gpu, r.id) == ClampGpu(r.gpu)
            && Load(b, r.id) == (if r.pending < 0 then 0 else r.pending)
                                + (if r.gpu < 0 then 0 else if r.gpu > 3 then 3 else r.gpu)
  {
    var init := ranks[..|ranks| - 1];
    SnapshotIsFresh(priority, init, "");
    if k < |init| {
      assert forall j | 0 <= j < |init| :: init[j] == ranks[j];
      SnapshotTakesLast(priority, init, k);
    }
  }

  // ---- One dispatch ----

  /** The listed candidate of least load among the first n, the first of equals. */
  lemma {:induction false} BestIsLeast(b: Board, cs: seq<Candidate>, blocked: set<string>, n: nat)
    requires n <= |b.priority|
    ensures match Best(b, cs, blocked, n)
            case Some(id) =>
              && Listed(b, cs, blocked, id) && First(b.priority, id) < n
              && (forall k | 0 <= k < n && Listed(b, cs, blocked, b.priority[k]) ::
                  Load(b, id) <= Load(b, b.priority[k]))
              && (forall k | 0 <= k < First(b.priority, id) && Listed(b, cs, blocked, b.priority[k]) ::
                  Load(b, id) < Load(b, b.priority[k]))
            case None => forall k | 0 <= k < n :: !Listed(b, cs, blocked, b.priority[k])
  {
    if n > 0 {
      BestIsLeast(b, cs, blocked, n - 1);
      var best, id := Best(b, cs, blocked, n - 1), b.priority[n - 1];
      if !(id in blocked || !Has(cs, id)) && (best.None? || Load(b, id) < Load(b, best.value)) {
        assert First(b.priority, id) <= n - 1;
        if First(b.priority, id) < n - 1 { SeenBefore(b, cs, blocked, n, id, First(b.priority, id)); }
      }
    }
  }

  /** A listed id that occurred before is no better than the best so far. */
  lemma SeenBefore(b: Board, cs: seq<Candidate>, blocked: set<string>, n: nat, id: string, k: nat)
    requires 0 < n <= |b.priority| && k < n - 1 && b.priority[k] == id && Listed(b, cs, blocked, id)
    requires match Best(b, cs, blocked, n - 1)
             case Some(best) => forall j | 0 <= j < n - 1 && Listed(b, cs, blocked, b.priority[j]) ::
               Load(b, best) <= Load(b, b.priority[j])
             case None => forall j | 0 <= j < n - 1 :: !Listed(b, cs, blocked, b.priority[j])
    ensures Best(b, cs, blocked, n - 1).Some? && Load(b, Best(b, cs, blocked, n - 1).value) <= Load(b, id)
  {
  }

  lemma RotatePermutes(cs: seq<Candidate>, i: nat)
    requires i < |cs|
    ensures multiset(Rotate(cs, i)) == multiset(cs) && |Rotate(cs, i)| == |cs|
    ensures Rotate(cs, i)[0] == cs[i] && Rotate(cs, i)[1..] == cs[..i] + cs[i + 1..]
  {
    assert cs == cs[..i] + [cs[i]] + cs[i + 1..];
  }

  lemma DemoteHas(cs: seq<Candidate>, cooling: set<string>, id: string)
    ensures Has(Demote(cs, cooling), id) <==> Has(cs, id)
  {
    DemotePermutes(cs, cooling);
    var d := Demote(cs, cooling);
    if Has(cs, id) {
      var k :| 0 <= k < |cs| && cs[k].id == id;
      assert cs[k] in multiset(d);
      var j :| 0 <= j < |d| && d[j] == cs[k];
    }
    if Has(d, id) {
      var k :| 0 <= k < |d| && d[k].id == id;
      assert d[k] in multiset(cs);
      var j :| 0 <= j < |cs| && cs[j] == d[k];
    }
  }

  /** Whatever is chosen, the list is a permutation: the choice in front, the rest in the partitioned order. */
  lemma ReservePermutes(b: Board, cs: seq<Candidate>, selected: string, warm: string, cooling: set<string>)
    ensures var (b', out) := Reserve(b, cs, selected, warm, cooling);
            var d := Demote(cs, cooling);
            && multiset(out) == multiset(cs)
            && (b' == b ==> out == d)
            && (b' != b ==> exists i | 0 <= i < |d| :: b' == Bump(b, d[i].id) && out == [d[i]] + d[..i] + d[i + 1..])
  {
    var d := Demote(cs, cooling);
    DemotePermutes(cs, cooling);
    var c := Choice(b, d, selected, warm, cooling);
    if c.Some? && Has(d, c.value) {
      RotatePermutes(d, Position(d, c.value));
      BumpChanges(b, c.value);
    }
  }

  lemma BumpChanges(b: Board, id: string)
    ensures Bump(b, id) != b
  {
    assert Get(Bump(b, id).reserved, id) == Get(b.reserved, id) + 1;
  }

  // ---- Pins and hints ----

  predicate SomeReady(cs: seq<Candidate>, cooling: set<string>) {
    exists k | 0 <= k < |cs| :: cs[k].id !in cooling
  }

  lemma ReadyAfterDemotion(cs: seq<Candidate>, cooling: set<string>)
    ensures SomeReady(Demote(cs, cooling), cooling) <==> SomeReady(cs, cooling)
  {
    DemotePermutes(cs, cooling);
    var d := Demote(cs, cooling);
    if k :| 0 <= k < |d| && d[k].id !in cooling {
      assert d[k] in multiset(cs);
      var j :| 0 <= j < |cs| && cs[j] == d[k];
    }
    if k :| 0 <= k < |cs| && cs[k].id !in cooling {
      assert cs[k] in multiset(d);
      var j :| 0 <= j < |d| && d[j] == cs[k];
    }
  }

  /** A selected node that is a candidate: nothing is reserved and nothing is moved. */
  lemma SelectionReservesNothing(b: Board, cs: seq<Candidate>, selected: string, warm: string, cooling: set<string>)
    requires selected != "" && Has(cs, selected)
    ensures Reserve(b, cs, selected, warm, cooling) == (b, Demote(cs, cooling))
  {
    DemoteHas(cs, cooling, selected);
  }

  /** The hint may be used: it is a candidate, not overloaded, and not cooling while another candidate is ready. */
  predicate Usable(b: Board, cs: seq<Candidate>, warm: string, cooling: set<string>) {
    && warm != "" && Has(cs, warm) && (warm !in cooling || forall k | 0 <= k < |cs| :: cs[k].id in cooling)
    && Get(b.pending, warm) + Get(b.reserved, warm) <= 1 && Get(b.gpu, warm) < MAX_GPU_PRESSURE
  }

  lemma UsableAfterDemotion(b: Board, cs: seq<Candidate>, warm: string, cooling: set<string>)
    ensures var d := Demote(cs, cooling); WarmOk(b, d, warm, Blocked(d, cooling)) <==> Usable(b, cs, warm, cooling)
  {
    ReadyAfterDemotion(cs, cooling);
    DemoteHas(cs, cooling, warm);
  }

  /** Without a selection, a usable hint is reserved and ends in front; one that is not usable is as good as none. */
  lemma HintDecidesWhenUsable(b: Board, cs: seq<Candidate>, selected: string, warm: string, cooling: set<string>)
    requires selected == "" || !Has(cs, selected)
    ensures var (b', out) := Reserve(b, cs, selected, warm, cooling);
            if Usable(b, cs, warm, cooling) then b' == Bump(b, warm) && out != [] && out[0].id == warm
            else (b', out) == Reserve(b, cs, selected, "", cooling)
  {
    var d := Demote(cs, cooling);
    if selected != "" { DemoteHas(cs, cooling, selected); }
    UsableAfterDemotion(b, cs, warm, cooling);
    UsableAfterDemotion(b, cs, "", cooling);
    DemoteHas(cs, cooling, warm);
    if Usable(b, cs, warm, cooling) { RotatePermutes(d, Position(d, warm)); }
  }

  // ---- Cooling ----

  /** A scheduler-listed candidate, and a ready one while any candidate is ready. */
  predicate Eligible(b: Board, cs: seq<Candidate>, cooling: set<string>, id: string) {
    id in b.priority && Has(cs, id) && (SomeReady(cs, cooling) ==> id !in cooling)
  }

  lemma EligibleIsListed(b: Board, cs: seq<Candidate>, cooling: set<string>, id: string)
    ensures var d := Demote(cs, cooling); Listed(b, d, Blocked(d, cooling), id) <==> Eligible(b, cs, cooling, id)
  {
    ReadyAfterDemotion(cs, cooling);
    DemoteHas(cs, cooling, id);
  }

  /** Without a selection or a usable hint the search decides, over the partitioned list. */
  lemma SearchDecides(b: Board, cs: seq<Candidate>, selected: string, warm: string, cooling: set<string>)
    requires (selected == "" || !Has(cs, selected)) && !Usable(b, cs, warm, cooling)
    ensures var d := Demote(cs, cooling);
            var best := Best(b, d, Blocked(d, cooling), |b.priority|);
            Reserve(b, cs, selected, warm, cooling) ==
              if best.Some? && Has(d, best.value) then (Bump(b, best.value), Rotate(d, Position(d, best.value)))
                else (b, d)
  {
    var d := Demote(cs, cooling);
    if selected != "" { DemoteHas(cs, cooling, selected); }
    UsableAfterDemotion(b, cs, warm, cooling);
    BestIsLeast(b, d, Blocked(d, cooling), |b.priority|);
  }

  /**
   * Without a selection or a usable hint, whatever cools: if some candidate is eligible, an eligible one
   * of least load, the first of equals in the scheduler's order, is counted and ends in front; if none
   * is, nothing is reserved. While any candidate is ready only ready ones are eligible; when none is,
   * every listed one is.
   */
  lemma ReadyLeastIsReserved(b: Board, cs: seq<Candidate>, selected: string, warm: string, cooling: set<string>)
    requires (selected == "" || !Has(cs, selected)) && !Usable(b, cs, warm, cooling)
    ensures var (b', out) := Reserve(b, cs, selected, warm, cooling);
            if exists id | id in b.priority :: Eligible(b, cs, cooling, id) then
              && out != [] && Eligible(b, cs, cooling, out[0].id) && b' == Bump(b, out[0].id)
              && forall id | Eligible(b, cs, cooling, id) ::
                   && Load(b, out[0].id) <= Load(b, id)
                   && (Load(b, id) == Load(b, out[0].id) ==> First(b.priority, out[0].id) <= First(b.priority, id))
            else b' == b && out == Demote(cs, cooling)
  {
    var d := Demote(cs, cooling);
    var blocked, n := Blocked(d, cooling), |b.priority|;
    SearchDecides(b, cs, selected, warm, cooling);
    BestIsLeast(b, d, blocked, n);
    forall id ensures Listed(b, d, blocked, id) <==> Eligible(b, cs, cooling, id) {
      EligibleIsListed(b, cs, cooling, id);
    }
    var best := Best(b, d, blocked, n);
    if best.Some? {
      RotatePermutes(d, Position(d, best.value));
      forall id | Eligible(b, cs, cooling, id)
        ensures Load(b, best.value) <= Load(b, id)
        ensures Load(b, id) == Load(b, best.value) ==> First(b.priority, best.value) <= First(b.priority, id)
      {
        assert b.priority[First(b.priority, id)] == id;
      }
    } else {
      forall id | id in b.priority ensures !Eligible(b, cs, cooling, id) {
        assert b.priority[First(b.priority, id)] == id;
      }
    }
  }

  // ---- A burst ----

  /** A request with no pin and no affinity hint. */
  function Dispatch(b: Board, cs: seq<Candidate>, cooling: set<string>): (Board, seq<Candidate>) {
    Reserve(b, cs, "", "", cooling)
  }

  /** The board after a burst, and the front candidate of each returned list. */
  function Burst(b: Board, lists: seq<seq<Candidate>>, cooling: set<string>): (Board, seq<string>) {
    if lists == [] then (b, [])
    else
      var (b1, sent) := Burst(b, lists[..|lists| - 1], cooling);
      var (b2, out) := Dispatch(b1, lists[|lists| - 1], cooling);
      (b2, if out == [] then sent else sent + [out[0].id])
  }

  predicate SameIds(cs: seq<Candidate>, ids: set<string>) {
    (forall k | 0 <= k < |cs| :: cs[k].id in ids) && forall id | id in ids :: Has(cs, id)
  }

  /** The candidates the scheduler lists, only ready ones while any candidate is ready. */
  function Targets(b: Board, ids: set<string>, cooling: set<string>): set<string> {
    set id | id in b.priority && id in ids && (ids <= cooling || id !in cooling)
  }

  /** Any target with a reservation is at most one above every other target. */
  ghost predicate Spread(b: Board, targets: set<string>) {
    forall c, d | c in targets && d in targets && Get(b.reserved, c) > 0 :: Load(b, c) <= Load(b, d) + 1
  }

  lemma TargetsAreEligible(b: Board, cs: seq<Candidate>, ids: set<string>, cooling: set<string>, id: string)
    requires SameIds(cs, ids)
    ensures Eligible(b, cs, cooling, id) <==> id in Targets(b, ids, cooling)
  {
    if SomeReady(cs, cooling) {
      var k :| 0 <= k < |cs| && cs[k].id !in cooling;
      assert cs[k].id in ids;
    } else {
      forall x | x in ids ensures x in cooling {
        var k :| 0 <= k < |cs| && cs[k].id == x;
      }
    }
  }

  /** A dispatch goes to a target of least load. */
  lemma DispatchToLeast(b: Board, cs: seq<Candidate>, ids: set<string>, cooling: set<string>)
    requires SameIds(cs, ids) && Targets(b, ids, cooling) != {}
    ensures var (b', out) := Dispatch(b, cs, cooling);
            && out != [] && out[0].id in Targets(b, ids, cooling) && b' == Bump(b, out[0].id)
            && forall d | d in Targets(b, ids, cooling) :: Load(b, out[0].id) <= Load(b, d)
  {
    forall id ensures Eligible(b, cs, cooling, id) <==> id in Targets(b, ids, cooling) {
      TargetsAreEligible(b, cs, ids, cooling, id);
    }
    var t :| t in Targets(b, ids, cooling);
    assert Eligible(b, cs, cooling, t);
    ReadyLeastIsReserved(b, cs, "", "", cooling);
  }

  lemma BumpSpreads(b: Board, targets: set<string>, c: string)
    requires Spread(b, targets) && c in targets && forall d | d in targets :: Load(b, c) <= Load(b, d)
    ensures Spread(Bump(b, c), targets)
  {
    var b' := Bump(b, c);
    forall x, d | x in targets && d in targets && Get(b'.reserved, x) > 0
      ensures Load(b', x) <= Load(b', d) + 1
    {
      assert Load(b', x) == Load(b, x) + if x == c then 1 else 0;
      assert Load(b', d) == Load(b, d) + if d == c then 1 else 0;
    }
  }

  /**
   * Bursts spread: after any number of requests over the same candidates since a snapshot, whatever
   * cools, a target holding a reservation is at most one above every other target, each id's load has
   * grown by exactly the dispatches sent to it, and there is one dispatch per request.
   */
  lemma {:induction false} BurstSpreads(b: Board, lists: seq<seq<Candidate>>, ids: set<string>, cooling: set<string>)
    requires b.reserved == map[] && Targets(b, ids, cooling) != {}
    requires forall k | 0 <= k < |lists| :: SameIds(lists[k], ids)
    ensures var (b', sent) := Burst(b, lists, cooling);
            && b'.(reserved := map[]) == b && Spread(b', Targets(b, ids, cooling)) && |sent| == |lists|
            && (forall k | 0 <= k < |sent| :: sent[k] in Targets(b, ids, cooling))
            && forall id ::
                 Get(b'.reserved, id) == multiset(sent)[id] && Load(b', id) == Load(b, id) + multiset(sent)[id]
  {
    if lists != [] {
      var init := lists[..|lists| - 1];
      BurstSpreads(b, init, ids, cooling);
      var (b1, sent1) := Burst(b, init, cooling);
      assert Targets(b1, ids, cooling) == Targets(b, ids, cooling);
      DispatchToLeast(b1, lists[|lists| - 1], ids, cooling);
      var (b2, out) := Dispatch(b1, lists[|lists| - 1], cooling);
      BumpSpreads(b1, Targets(b, ids, cooling), out[0].id);
    }
  }
}
