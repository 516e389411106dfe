/**
 * The durable admission counter (services/nvpair-cluster-manager/admission_store.go):
 * a node-global epoch is reserved, then activated for a cluster, then cleared on
 * teardown, with every write to admission.json allowed to fail and a crash allowed
 * between any two operations. Epochs are unsigned 64-bit and wrap.
 */
module Admission {
  import opened Options

  const LIMIT := 0x1_0000_0000_0000_0000

  datatype Record = Record(counter: nat, activated: nat, retired: bool, clusterId: string, epoch: nat)

  const FIRST := Record(0, 0, false, "", 0)

  /** The record in memory, and the file if there is one. */
  datatype Store = Store(mem: Record, disk: Option<Record>)

  datatype Event = Reserved(epoch: nat) | Activated(clusterId: string, epoch: nat)

  /** Files from before the activation mark carry it implicitly. */
  function Upgrade(r: Record): Record {
    if r.activated == 0 && r.epoch != 0 then r.(activated := r.epoch) else r
  }

  predicate Consistent(r: Record) {
    r.epoch <= r.activated <= r.counter < LIMIT && (r.clusterId == "" <==> r.epoch == 0)
  }

  /** What loading a file gives: None is an error. */
  function Parse(disk: Option<Record>): Option<Record> {
    if disk.None? then Some(FIRST)
    else
      var r := Upgrade(disk.value);
      if r.epoch > r.counter || r.activated > r.counter || r.epoch > r.activated
        || (r.clusterId == "") != (r.epoch == 0) then None
      else Some(r)
  }

  /**
   * No file loads as a fresh node. A file loads exactly when its epochs are in order and it names a
   * cluster exactly if it has an epoch, reading the current epoch as the activation mark if it has none.
   */
  lemma LoadMeans(r: Record)
    ensures Parse(None) == Some(Record(0, 0, false, "", 0))
    ensures var mark := if r.activated == 0 then r.epoch else r.activated;
            Parse(Some(r)) ==
              if r.epoch <= mark <= r.counter && (r.clusterId == "" <==> r.epoch == 0)
              then Some(Record(r.counter, mark, r.retired, r.clusterId, r.epoch)) else None
  {
  }

  /** An atomic write: the file is replaced whole or not at all. */
  function Persist(s: Store, r: Record, ok: bool): Store {
    if ok then Store(r, Some(r)) else s
  }

  /** reserveAdmissionEpoch. */
  function Reserve(s: Store, ok: bool): (Store, seq<Event>) {
    var r := s.mem.(counter := (s.mem.counter + 1) % LIMIT);
    (Persist(s, r, ok), if ok then [Reserved(r.counter)] else [])
  }

  predicate MayActivate(r: Record, clusterId: string, epoch: nat, pending: bool) {
    clusterId != "" && epoch != 0 && !pending && r.activated < epoch <= r.counter
  }

  /** activateAdmission; `pending` is a teardown under way. */
  function Activate(s: Store, clusterId: string, epoch: nat, pending: bool, ok: bool): (Store, seq<Event>) {
    if !MayActivate(s.mem, clusterId, epoch, pending) || !ok then (s, [])
    else (Persist(s, s.mem.(activated := epoch, retired := false, clusterId := clusterId, epoch := epoch), ok),
          [Activated(clusterId, epoch)])
  }

  /** clearAdmission. */
  function Clear(s: Store, ok: bool): Store {
    Persist(s, s.mem.(retired := true, clusterId := "", epoch := 0), ok)
  }

  /** A restart that finds a consistent file; one that does not is refused and changes nothing. */
  function Reload(s: Store): Store {
    if Parse(s.disk).Some? then s.(mem := Parse(s.disk).value) else s
  }

  /** ensureAdmission with nothing in between: None is an error. */
  function Ensure(s: Store, clusterId: string, pending: bool, reserveOk: bool, activateOk: bool): (Store, Option<nat>) {
    if s.mem.clusterId == clusterId && s.mem.epoch != 0 then (s, Some(s.mem.epoch))
    else if s.mem.clusterId != "" || s.mem.epoch != 0 || s.mem.retired then (s, None)
    else
      var (s1, _) := Reserve(s, reserveOk);
      if !reserveOk then (s1, None)
      else
        var (s2, _) := Activate(s1, clusterId, s1.mem.counter, pending, activateOk);
        (s2,
         if MayActivate(s1.mem, clusterId, s1.mem.counter, pending) && activateOk then Some(s1.mem.counter) else None)
  }

  // ---- Runs ----

  datatype Action =
    | DoReserve(ok: bool)
    | DoActivate(clusterId: string, epoch: nat, pending: bool, ok: bool)
    | DoClear(ok: bool)
    | DoRestart

  function Act(s: Store, a: Action): (Store, seq<Event>) {
    match a
    case DoReserve(ok) => Reserve(s, ok)
    case DoActivate(c, e, p, ok) => Activate(s, c, e, p, ok)
    case DoClear(ok) => (Clear(s, ok), [])
    case DoRestart => (Reload(s), [])
  }

  function Exec(s: Store, run: seq<Action>): (Store, seq<Event>) {
    if run == [] then (s, [])
    else
      var (t, log) := Exec(s, run[..|run| - 1]);
      var (t', es) := Act(t, run[|run| - 1]);
      (t', log + es)
  }

  /** Memory is what a restart would read, and the marks are in order. */
  ghost predicate Durable(s: Store) {
    Parse(s.disk) == Some(s.mem) && Consistent(s.mem)
  }

  predicate Wraps(s: Store, a: Action) {
    a.DoReserve? && a.ok && s.mem.counter == LIMIT - 1
  }

  /** One operation keeps the record durable and ordered, unless it is the reservation that wraps. */
  lemma StepDurable(s: Store, a: Action)
    requires Durable(s) && !Wraps(s, a)
    ensures Durable(Act(s, a).0) && s.mem.counter <= Act(s, a).0.mem.counter <= s.mem.counter + 1
    ensures s.mem.activated <= Act(s, a).0.mem.activated
  {
  }

  /** The wrapping reservation hands out epoch 0, and breaks the order exactly when something had been activated. */
  lemma WrapBreaksOrder(s: Store, a: Action)
    requires Durable(s) && Wraps(s, a)
    ensures Act(s, a).1 == [Reserved(0)] && (Durable(Act(s, a).0) <==> s.mem.activated == 0)
  {
    assert (s.mem.counter + 1) % LIMIT == 0;
  }

  /** Such a state exists: the last epoch is in use. */
  lemma WrapIsReachableInPrinciple()
    ensures var r := Record(LIMIT - 1, 1, false, "c", 1);
            Durable(Store(r, Some(r))) && !Durable(Act(Store(r, Some(r)), DoReserve(true)).0)
  {
    var r := Record(LIMIT - 1, 1, false, "c", 1);
    WrapBreaksOrder(Store(r, Some(r)), DoReserve(true));
  }

  function Reservations(run: seq<Action>): nat {
    if run == [] then 0 else Reservations(run[..|run| - 1]) + if run[|run| - 1].DoReserve? then 1 else 0
  }

  /**
   * Over any run that starts from a loadable file and reserves fewer than 2^64 epochs in all,
   * memory equals disk after every operation and Epoch <= Activated <= Counter.
   */
  lemma {:induction false} RunDurable(s: Store, run: seq<Action>)
    requires Durable(s) && s.mem.counter + Reservations(run) < LIMIT
    ensures Durable(Exec(s, run).0) && Exec(s, run).0.mem.counter <= s.mem.counter + Reservations(run)
  {
    if run != [] {
      var init, a := run[..|run| - 1], run[|run| - 1];
      RunDurable(s, init);
      StepBound(Exec(s, init).0, a);
    }
  }

  lemma StepBound(s: Store, a: Action)
    requires Durable(s) && s.mem.counter + (if a.DoReserve? then 1 else 0) < LIMIT
    ensures Durable(Act(s, a).0) && Act(s, a).0.mem.counter <= s.mem.counter + if a.DoReserve? then 1 else 0
  {
    StepDurable(s, a);
  }

  // ---- What the log says ----

  /** Every epoch up to the counter was reserved, and the activated ones increase up to the mark. */
  ghost predicate Logged(s: Store, log: seq<Event>) {
    && (forall e | 1 <= e <= s.mem.counter :: Reserved(e) in log)
    && (forall i | 0 <= i < |log| && log[i].Activated? :: log[i].epoch <= s.mem.activated)
    && (forall i, j | 0 <= i < j < |log| && log[i].Activated? && log[j].Activated? :: log[i].epoch < log[j].epoch)
    && (forall i | 0 <= i < |log| && log[i].Activated? :: Reserved(log[i].epoch) in log[..i])
  }

  lemma StepLogged(s: Store, log: seq<Event>, a: Action)
    requires Durable(s) && Logged(s, log) && s.mem.counter + (if a.DoReserve? then 1 else 0) < LIMIT
    ensures Logged(Act(s, a).0, log + Act(s, a).1)
  {
    var (s', es) := Act(s, a);
    var log' := log + es;
    StepDurable(s, a);
    forall e | 1 <= e <= s'.mem.counter ensures Reserved(e) in log' {
      if e <= s.mem.counter { assert Reserved(e) in log; }
    }
    forall i | 0 <= i < |log'| && log'[i].Activated? ensures Reserved(log'[i].epoch) in log'[..i] {
      if i < |log| {
        assert log'[..i] == log[..i];
      } else {
        assert log'[..i] == log;
        assert Reserved(log'[i].epoch) in log;
      }
    }
  }

  /**
   * From a first start, over any run with fewer than 2^64 reservations: activated epochs strictly
   * increase, each was reserved earlier, and none is activated twice, across failed writes and crashes.
   */
  lemma {:induction false} ActivationsIncrease(run: seq<Action>)
    requires Reservations(run) < LIMIT
    ensures var (s, log) := Exec(Store(FIRST, None), run); Durable(s) && Logged(s, log)
  {
    var s0 := Store(FIRST, None);
    if run != [] {
      var init, a := run[..|run| - 1], run[|run| - 1];
      ActivationsIncrease(init);
      RunDurable(s0, init);
      var (s, log) := Exec(s0, init);
      StepLogged(s, log, a);
      StepBound(s, a);
    }
  }

  /** ensureAdmission never moves a matching admission, and mints one only for a node that holds none and never left. */
  lemma EnsureIsIdempotent(s: Store, clusterId: string, pending: bool, reserveOk: bool, activateOk: bool)
    requires Durable(s) && s.mem.counter + 1 < LIMIT && clusterId != ""
    ensures var (s', e) := Ensure(s, clusterId, pending, reserveOk, activateOk);
            && Durable(s') && (e.Some? ==> s'.mem.clusterId == clusterId && s'.mem.epoch == e.value != 0)
            && (e.Some? && s' != s ==> s.mem.clusterId == "" && !s.mem.retired && e.value == s.mem.counter + 1)
            && (e.Some? ==> Ensure(s', clusterId, pending, reserveOk, activateOk) == (s', e))
  {
    StepDurable(s, DoReserve(reserveOk));
    var s1 := Reserve(s, reserveOk).0;
    StepDurable(s1, DoActivate(clusterId, s1.mem.counter, pending, activateOk));
  }
}
