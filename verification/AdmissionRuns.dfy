/**
 * Where a node stands, read off what it did: in a cluster since the last activation
 * that succeeded, out of it since the last clear that succeeded, or never admitted.
 * The stored record says the same after any run of operations, failed writes and
 * restarts, and it decides what ensureAdmission answers. So leaving is durable.
 */
module AdmissionRuns {
  import opened Options
  import opened Admission

  datatype Standing = Never | In(clusterId: string, epoch: nat) | Left

  /** What the record of a node with this standing holds. */
  predicate Says(r: Record, st: Standing) {
    match st
    case Never => r.clusterId == "" && r.epoch == 0 && !r.retired
    case In(c, e) => r.clusterId == c != "" && r.epoch == e != 0 && !r.retired
    case Left => r.clusterId == "" && r.epoch == 0 && r.retired
  }

  /** Memory says it, and so does whatever a restart would load. */
  predicate Stands(s: Store, st: Standing) {
    Says(s.mem, st) && (s.disk.Some? ==> Says(s.disk.value, st)) && (s.disk.None? ==> st == Never)
  }

  predicate LastLeaves(run: seq<Action>) {
    run != [] && run[|run| - 1] == DoClear(true)
  }

  /** Operation n is an activation, and it succeeds. */
  predicate ActivatesAt(s: Store, run: seq<Action>, n: nat)
    requires n < |run|
  {
    run[n].DoActivate? && run[n].ok
      && MayActivate(Exec(s, run[..n]).0.mem, run[n].clusterId, run[n].epoch, run[n].pending)
  }

  /** The last clear or activation that succeeded decides. */
  function StandingAfter(s: Store, st: Standing, run: seq<Action>): Standing {
    if run == [] then st
    else if LastLeaves(run) then Left
    else if ActivatesAt(s, run, |run| - 1) then In(run[|run| - 1].clusterId, run[|run| - 1].epoch)
    else StandingAfter(s, st, run[..|run| - 1])
  }

  /** After any run the record, in memory and on disk, says what the run's operations say. */
  lemma {:induction false} RecordSaysStanding(s: Store, st: Standing, run: seq<Action>)
    requires Stands(s, st)
    ensures Stands(Exec(s, run).0, StandingAfter(s, st, run))
  {
    if run != [] {
      var init, a := run[..|run| - 1], run[|run| - 1];
      RecordSaysStanding(s, st, init);
      StandStep(Exec(s, init).0, StandingAfter(s, st, init), a);
    }
  }

  lemma StandStep(s: Store, st: Standing, a: Action)
    requires Stands(s, st)
    ensures a == DoClear(true) ==> Stands(Act(s, a).0, Left)
    ensures a.DoActivate? && a.ok && MayActivate(s.mem, a.clusterId, a.epoch, a.pending) ==>
              Stands(Act(s, a).0, In(a.clusterId, a.epoch))
    ensures a != DoClear(true) && !(a.DoActivate? && a.ok && MayActivate(s.mem, a.clusterId, a.epoch, a.pending)) ==>
              Stands(Act(s, a).0, st)
  {
  }

  /**
   * What ensureAdmission answers, by standing: a member gets its own admission, for its own cluster
   * only; a node that left gets an error for every cluster; a node never admitted gets the next epoch,
   * exactly when no teardown is pending and both writes succeed.
   */
  lemma EnsureByStanding(s: Store, st: Standing, clusterId: string, pending: bool, reserveOk: bool, activateOk: bool)
    requires Stands(s, st) && clusterId != "" && s.mem.activated <= s.mem.counter && s.mem.counter + 1 < LIMIT
    ensures var (s', e) := Ensure(s, clusterId, pending, reserveOk, activateOk);
            match st
            case In(c, epoch) => s' == s && e == if c == clusterId then Some(epoch) else None
            case Left => s' == s && e == None
            case Never =>
              && (e.Some? <==> !pending && reserveOk && activateOk)
              && (e.Some? ==> e.value == s.mem.counter + 1 && Stands(s', In(clusterId, e.value)))
              && (e.None? ==> Stands(s', Never))
  {
  }

  /** Some clear in the run succeeded and no activation after it did. */
  predicate LeftAndStayedOut(s: Store, run: seq<Action>, k: nat)
    requires k < |run|
  {
    run[k] == DoClear(true) && forall n | k < n < |run| :: !ActivatesAt(s, run, n)
  }

  lemma {:induction false} StaysLeft(s: Store, st: Standing, run: seq<Action>, k: nat)
    requires k < |run| && LeftAndStayedOut(s, run, k)
    ensures StandingAfter(s, st, run) == Left
  {
    if k < |run| - 1 {
      var init := run[..|run| - 1];
      forall n | k < n < |init| ensures !ActivatesAt(s, init, n) {
        assert init[..n] == run[..n];
        assert !ActivatesAt(s, run, n);
      }
      StaysLeft(s, st, init, k);
    }
  }

  /**
   * Leaving is durable: once a clear has succeeded, and until an activation succeeds, ensureAdmission
   * refuses every cluster, whatever the disk answers, after any reservations, failed writes, failed
   * activations and restarts, and even past a counter that wrapped.
   */
  lemma LeavingIsDurable(s: Store, st: Standing, run: seq<Action>, k: nat, clusterId: string, pending: bool,
          reserveOk: bool, activateOk: bool)
    requires Stands(s, st) && k < |run| && LeftAndStayedOut(s, run, k) && clusterId != ""
    ensures var t := Exec(s, run).0; Ensure(t, clusterId, pending, reserveOk, activateOk) == (t, None)
  {
    RecordSaysStanding(s, st, run);
    StaysLeft(s, st, run, k);
  }

  /**
   * A node starts with the standing its file says; without a file it was never admitted. Only a file that
   * names an active admission and is marked retired says nothing, and no operation writes one.
   */
  lemma LoadedStands(disk: Option<Record>) returns (st: Standing)
    requires Parse(disk).Some?
    ensures Stands(Store(Parse(disk).value, disk), st) <==> !(disk.Some? && disk.value.epoch != 0 && disk.value.retired)
    ensures disk.None? ==> st == Never
  {
    var r := Parse(disk).value;
    st := if r.epoch != 0 then In(r.clusterId, r.epoch) else if r.retired then Left else Never;
  }
}
