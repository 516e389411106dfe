/**
 * The admission store as the manager runs it: fields changed first, persisted, and
 * restored when the write fails. Each method is proved against Admission.dfy.
 */
module AdmissionStore {
  import opened Options
  import opened Admission

  class AdmissionFile {
    var counter: nat
    var activated: nat
    var retired: bool
    var clusterId: string
    var epoch: nat
    var disk: Option<Record>

    ghost function V(): Store
      reads this
    {
      Store(Record(counter, activated, retired, clusterId, epoch), disk)
    }

    constructor (disk: Option<Record>)
      ensures V() == Store(FIRST, disk)
    {
      counter, activated, retired, clusterId, epoch := 0, 0, false, "", 0;
      this.disk := disk;
    }

    /** persistAdmissionLocked through atomicWrite. */
    method PersistLocked(written: bool) returns (err: bool)
      modifies this`disk
      ensures err == !written && disk == if written then Some(V().mem) else old(disk)
    {
      if !written { return true; }
      disk := Some(Record(counter, activated, retired, clusterId, epoch));
      return false;
    }

    method ReserveEpoch(written: bool) returns (reserved: nat, err: bool)
      modifies this`counter, this`disk
      ensures V() == Reserve(old(V()), written).0 && err == !written
      ensures !err ==> Reserve(old(V()), written).1 == [Reserved(reserved)]
    {
      var before := counter;
      counter := (counter + 1) % LIMIT;
      err := PersistLocked(written);
      if err {
        counter := before;
        return 0, true;
      }
      return counter, false;
    }

    method ActivateAdmission(cid: string, e: nat, pending: bool, written: bool) returns (err: bool)
      modifies this
      ensures V() == Activate(old(V()), cid, e, pending, written).0
      ensures !err <==> Activate(old(V()), cid, e, pending, written).1 == [Activated(cid, e)]
    {
      if cid == "" || e == 0 { return true; }
      if pending { return true; }
      if e > counter { return true; }
      if e <= activated { return true; }
      var oldActivated, oldRetired, oldCluster, oldEpoch := activated, retired, clusterId, epoch;
      activated, retired, clusterId, epoch := e, false, cid, e;
      err := PersistLocked(written);
      if err {
        activated, retired, clusterId, epoch := oldActivated, oldRetired, oldCluster, oldEpoch;
      }
    }

    method ClearAdmission(written: bool) returns (err: bool)
      modifies this`retired, this`clusterId, this`epoch, this`disk
      ensures V() == Clear(old(V()), written) && err == !written
    {
      var oldRetired, oldCluster, oldEpoch := retired, clusterId, epoch;
      retired, clusterId, epoch := true, "", 0;
      err := PersistLocked(written);
      if err {
        retired, clusterId, epoch := oldRetired, oldCluster, oldEpoch;
      }
    }

    method EnsureAdmission(cid: string, pending: bool, reserveOk: bool, activateOk: bool) returns (e: nat, err: bool)
      modifies this
      ensures var r := Ensure(old(V()), cid, pending, reserveOk, activateOk);
              V() == r.0 && err == r.1.None? && (!err ==> r.1 == Some(e))
    {
      if clusterId == cid && epoch != 0 { return epoch, false; }
      if clusterId != "" || epoch != 0 { return 0, true; }
      if retired { return 0, true; }
      e, err := ReserveEpoch(reserveOk);
      if err { return 0, true; }
      err := ActivateAdmission(cid, e, pending, activateOk);
    }

    /** loadAdmission on a fresh process; an inconsistent file is refused. */
    method LoadAdmission() returns (err: bool)
      requires V().mem == FIRST
      modifies this`counter, this`activated, this`retired, this`clusterId, this`epoch
      ensures err == Parse(disk).None? && V() == Reload(old(V()))
    {
      if disk.None? { return false; }
      var state := disk.value;
      if state.activated == 0 && state.epoch != 0 {
        state := state.(activated := state.epoch);
      }
      if state.epoch > state.counter { return true; }
      if state.activated > state.counter || state.epoch > state.activated { return true; }
      if (state.clusterId == "") != (state.epoch == 0) { return true; }
      counter, activated, retired, clusterId, epoch := state.counter, state.activated, state.retired, state.clusterId,
        state.epoch;
      return false;
    }
  }
}
