/**
 Where VMs are: the per-VM record, the rules by which lifecycle events and snapshots
 change it, and the store that holds the records. Times are nanoseconds since 1970;
 ZERO_TIME is Go's zero time, which lies before every 64-bit observation time.
 */
module Placement {
  import opened Options

  const ZERO_TIME: int := -62135596800000000000

  type Int64 = x: int | -0x8000_0000_0000_0000 <= x < 0x8000_0000_0000_0000

  datatype Status = Absent | Staged | Active

  datatype VM = VM(name: string, status: Status, last: int, observed: Int64, stagedAt: int)

  type VMs = map<int, VM>

  // ---- One record ----

  /** An older event loses, except a lifecycle event against a record a snapshot wrote. */
  predicate Rejected(vm: VM, t: int, observed: Int64) {
    t != ZERO_TIME && vm.last > t && !(observed == 0 && vm.observed > 0)
  }

  function SetVM(r: Option<VM>, name: string, status: Status, t: int, observed: Int64): VM {
    match r
    case None => VM(name, status, t, observed, ZERO_TIME)
    case Some(vm) =>
      if Rejected(vm, t, observed) then vm
      else VM(if name != "" then name else vm.name, status, t, observed,
              if status != Staged then ZERO_TIME else vm.stagedAt)
  }

  /** SetActive, SetStaged and SetAbsent. */
  function Lifecycle(r: Option<VM>, name: string, status: Status, t: int): VM {
    var vm := SetVM(r, name, status, t, 0);
    if status == Staged && vm.status == Staged then vm.(stagedAt := t) else vm
  }

  function Snapshot(r: Option<VM>, name: string, running: bool, observed: Int64): VM {
    if r.Some? && r.value.observed > observed then r.value
    else if r.Some? && r.value.status == Staged && !running then
      r.value.(observed := observed, name := if name != "" then name else r.value.name)
    else SetVM(r, name, if running then Active else Absent, observed, observed)
  }

  predicate Expired(vm: VM, cutoff: int) {
    vm.status == Staged && vm.stagedAt != ZERO_TIME && vm.stagedAt <= cutoff
  }

  function Expire(vm: VM, cutoff: int): VM {
    if Expired(vm, cutoff) then vm.(status := Absent, stagedAt := ZERO_TIME) else vm
  }

  /** The start.finished handler: a staged VM waits for migrate.synced. */
  function LocalStart(r: Option<VM>, name: string, t: int): VM {
    if r.Some? && r.value.status == Staged then r.value else Lifecycle(r, name, Active, t)
  }

  // ---- All records ----

  function SetStatus(vms: VMs, v: int, name: string, status: Status, t: int): VMs {
    vms[v := Lifecycle(Lookup(vms, v), name, status, t)]
  }

  function Observe(vms: VMs, v: int, name: string, running: bool, observed: Int64): VMs {
    vms[v := Snapshot(Lookup(vms, v), name, running, observed)]
  }

  function ExpireAll(vms: VMs, cutoff: int): VMs {
    map v | v in vms :: Expire(vms[v], cutoff)
  }

  function WithStatus(vms: VMs, status: Status): set<int> {
    set v | v in vms && vms[v].status == status
  }

  // ---- Convergence ----

  datatype Snap = Snap(name: string, running: bool, observed: Int64)

  function AfterSnaps(r: Option<VM>, ss: seq<Snap>): Option<VM> {
    if ss == [] then r
    else
      var s := ss[|ss| - 1];
      Some(Snapshot(AfterSnaps(r, ss[..|ss| - 1]), s.name, s.running, s.observed))
  }

  /** The snapshot observed last; of several observed at one time, the one that arrived last. */
  predicate LatestSnap(ss: seq<Snap>, k: nat) {
    && k < |ss|
    && (forall i | 0 <= i < k :: ss[i].observed <= ss[k].observed)
    && (forall i | k < i < |ss| :: ss[i].observed < ss[k].observed)
  }

  lemma {:induction false} LatestSnapExists(ss: seq<Snap>) returns (k: nat)
    requires ss != []
    ensures LatestSnap(ss, k)
  {
    var n := |ss| - 1;
    if n == 0 {
      k := 0;
    } else {
      var j := LatestSnapExists(ss[..n]);
      k := if ss[n].observed < ss[j].observed then j else n;
    }
  }

  /** A VM known only from snapshots has the status of the latest one, whatever order they came in. */
  lemma {:induction false} LatestSnapWins(ss: seq<Snap>, k: nat)
    requires LatestSnap(ss, k)
    ensures var r := AfterSnaps(None, ss);
            && r.Some? && r.value.observed == r.value.last == ss[k].observed
            && r.value.status == if ss[k].running then Active else Absent
  {
    var n := |ss| - 1;
    if n > 0 {
      var j := LatestSnapExists(ss[..n]);
      LatestSnapWins(ss[..n], j);
      if k < n {
        LatestSnapWins(ss[..n], k);
      }
    }
  }

  lemma SameLatestSnap(ss: seq<Snap>, tt: seq<Snap>, k: nat) returns (l: nat)
    requires LatestSnap(ss, k) && forall s :: s in ss <==> s in tt
    requires forall i, j | 0 <= i < j < |tt| :: tt[i].observed != tt[j].observed
    ensures LatestSnap(tt, l) && tt[l] == ss[k]
  {
    assert ss[k] in tt;
    l :| 0 <= l < |tt| && tt[l] == ss[k];
    forall i | 0 <= i < |tt| && i != l ensures tt[i].observed < tt[l].observed {
      assert tt[i] in ss;
    }
  }

  lemma SnapshotsConverge(ss: seq<Snap>, tt: seq<Snap>)
    requires ss != [] && forall s :: s in ss <==> s in tt
    requires forall i, j | 0 <= i < j < |ss| :: ss[i].observed != ss[j].observed
    requires forall i, j | 0 <= i < j < |tt| :: tt[i].observed != tt[j].observed
    ensures AfterSnaps(None, ss).Some? && AfterSnaps(None, tt).Some?
    ensures AfterSnaps(None, ss).value.status == AfterSnaps(None, tt).value.status
    ensures AfterSnaps(None, ss).value.observed == AfterSnaps(None, tt).value.observed
  {
    var k := LatestSnapExists(ss);
    var l := SameLatestSnap(ss, tt, k);
    LatestSnapWins(ss, k);
    LatestSnapWins(tt, l);
  }

  datatype Life = Life(name: string, status: Status, t: int)

  function AfterLives(r: Option<VM>, es: seq<Life>): Option<VM> {
    if es == [] then r
    else
      var e := es[|es| - 1];
      Some(Lifecycle(AfterLives(r, es[..|es| - 1]), e.name, e.status, e.t))
  }

  predicate LatestLife(es: seq<Life>, k: nat) {
    && k < |es|
    && (forall i | 0 <= i < k :: es[i].t <= es[k].t)
    && (forall i | k < i < |es| :: es[i].t < es[k].t)
  }

  lemma {:induction false} LatestLifeExists(es: seq<Life>) returns (k: nat)
    requires es != []
    ensures LatestLife(es, k)
  {
    var n := |es| - 1;
    if n == 0 {
      k := 0;
    } else {
      var j := LatestLifeExists(es[..n]);
      k := if es[n].t < es[j].t then j else n;
    }
  }

  predicate Timed(es: seq<Life>) {
    forall i | 0 <= i < |es| :: es[i].t != ZERO_TIME
  }

  /** A VM known only from timed lifecycle events has the status of the latest one. */
  lemma {:induction false} LatestLifeWins(es: seq<Life>, k: nat)
    requires LatestLife(es, k) && Timed(es)
    ensures var r := AfterLives(None, es);
            r.Some? && r.value.observed == 0 && r.value.last == es[k].t && r.value.status == es[k].status
  {
    var n := |es| - 1;
    if n > 0 {
      var j := LatestLifeExists(es[..n]);
      LatestLifeWins(es[..n], j);
      if k < n {
        LatestLifeWins(es[..n], k);
      }
    }
  }

  lemma LifecyclesConverge(es: seq<Life>, fs: seq<Life>)
    requires es != [] && forall e :: e in es <==> e in fs
    requires Timed(es)
    requires forall i, j | 0 <= i < j < |es| :: es[i].t != es[j].t
    requires forall i, j | 0 <= i < j < |fs| :: fs[i].t != fs[j].t
    ensures AfterLives(None, es).Some? && AfterLives(None, fs).Some?
    ensures AfterLives(None, es).value.status == AfterLives(None, fs).value.status
    ensures AfterLives(None, es).value.last == AfterLives(None, fs).value.last
  {
    var k := LatestLifeExists(es);
    assert es[k] in fs;
    var l :| 0 <= l < |fs| && fs[l] == es[k];
    forall i | 0 <= i < |fs| ensures fs[i].t != ZERO_TIME && (i != l ==> fs[i].t < fs[l].t) {
      assert fs[i] in es;
    }
    LatestLifeWins(es, k);
    LatestLifeWins(fs, l);
  }

  /** Two events at different times commute exactly when both carry a time or they agree anyway. */
  lemma TwoLivesCommute(d: Life, e: Life)
    requires d.t != e.t
    ensures AfterLives(None, [d, e]).value.status == AfterLives(None, [e, d]).value.status
       <==> (d.t != ZERO_TIME && e.t != ZERO_TIME) || d.status == e.status
             || (d.t == ZERO_TIME && e.t < d.t) || (e.t == ZERO_TIME && d.t < e.t)
  {
    AfterTwo(d, e);
    AfterTwo(e, d);
  }

  lemma AfterTwo(d: Life, e: Life)
    ensures AfterLives(None, [d, e]) ==
            Some(Lifecycle(Some(Lifecycle(None, d.name, d.status, d.t)), e.name, e.status, e.t))
  {
    assert [d, e][..1] == [d];
    assert [d][..0] == [];
    assert AfterLives(None, [d]) == Some(Lifecycle(AfterLives(None, []), d.name, d.status, d.t));
  }

  // ---- Staged VMs ----

  /** What may reach a node about a VM that is migrating to it. */
  datatype Heard =
    | NotRunning(name: string, observed: Int64)
    | Running(name: string, observed: Int64)
    | Started(name: string, t: int)

  function Hear(vm: VM, h: Heard): VM {
    match h
    case NotRunning(name, observed) => Snapshot(Some(vm), name, false, observed)
    case Running(name, observed) => Snapshot(Some(vm), name, true, observed)
    case Started(name, t) => LocalStart(Some(vm), name, t)
  }

  /** Of these, only a running snapshot no older than what is on record makes a staged VM leave staging. */
  lemma HeardLeavesStaged(vm: VM, h: Heard)
    requires vm.status == Staged
    ensures Hear(vm, h).status != Staged <==>
            h.Running? && h.observed >= vm.observed && h.observed >= vm.last
    ensures Hear(vm, h).status == Staged ==> Hear(vm, h).last == vm.last && Hear(vm, h).stagedAt == vm.stagedAt
  {
  }

  function HearAll(vm: VM, hs: seq<Heard>): VM
    decreases hs
  {
    if hs == [] then vm else HearAll(Hear(vm, hs[0]), hs[1..])
  }

  /** Staging survives any run of not-running snapshots, older running ones and local starts. */
  lemma {:induction false} StagedStays(vm: VM, hs: seq<Heard>)
    requires vm.status == Staged
    requires forall i | 0 <= i < |hs| :: hs[i].Running? ==> hs[i].observed < vm.last
    ensures HearAll(vm, hs).status == Staged && HearAll(vm, hs).stagedAt == vm.stagedAt
    decreases hs
  {
    if hs != [] {
      HeardLeavesStaged(vm, hs[0]);
      StagedStays(Hear(vm, hs[0]), hs[1..]);
    }
  }

  // ---- The store ----

  class PlacementStore {
    var vms: VMs

    constructor ()
      ensures vms == map[]
    {
      vms := map[];
    }

    /** set: the one place a record is created or replaced. */
    method Set(v: int, name: string, status: Status, t: int, observed: Int64)
      modifies this
      ensures vms == old(vms)[v := SetVM(Lookup(old(vms), v), name, status, t, observed)]
    {
      if v in vms {
        var vm := vms[v];
        if t != ZERO_TIME && vm.last > t {
          if !(observed == 0 && vm.observed > 0) {
            assert vms == old(vms)[v := vm];
            return;
          }
        }
        vm := vm.(status := status, last := t, observed := observed);
        if status != Staged {
          vm := vm.(stagedAt := ZERO_TIME);
        }
        if name != "" {
          vm := vm.(name := name);
        }
        vms := vms[v := vm];
      } else {
        vms := vms[v := VM(name, status, t, observed, ZERO_TIME)];
      }
    }

    method SetActive(v: int, name: string, t: int)
      modifies this
      ensures vms == SetStatus(old(vms), v, name, Active, t)
    {
      Set(v, name, Active, t, 0);
    }

    method SetAbsent(v: int, t: int)
      modifies this
      ensures vms == SetStatus(old(vms), v, "", Absent, t)
    {
      Set(v, "", Absent, t, 0);
    }

    method SetStaged(v: int, name: string, t: int)
      modifies this
      ensures vms == SetStatus(old(vms), v, name, Staged, t)
    {
      Set(v, name, Staged, t, 0);
      if vms[v].status == Staged {
        vms := vms[v := vms[v].(stagedAt := t)];
      }
    }

    method UpdateFromSnapshot(v: int, name: string, running: bool, observed: Int64)
      modifies this
      ensures vms == Observe(old(vms), v, name, running, observed)
    {
      if v in vms && vms[v].observed > observed {
        assert vms == vms[v := vms[v]];
        return;
      }
      if v in vms && vms[v].status == Staged && !running {
        var vm := vms[v].(observed := observed);
        if name != "" {
          vm := vm.(name := name);
        }
        vms := vms[v := vm];
        return;
      }
      Set(v, name, if running then Active else Absent, observed, observed);
    }

    /** Clears every staged marker set at or before cutoff and lists the VMs it cleared. */
    method ExpireStaged(cutoff: int) returns (expired: set<int>)
      modifies this
      ensures vms == ExpireAll(old(vms), cutoff)
      ensures expired == set v | v in old(vms) && Expired(old(vms)[v], cutoff)
    {
      ghost var was := vms;
      expired := {};
      var todo := vms.Keys;
      while todo != {}
        invariant todo <= vms.Keys == was.Keys
        invariant forall v | v in was :: vms[v] == if v in todo then was[v] else Expire(was[v], cutoff)
        invariant forall v :: v in expired <==> v in was && v !in todo && Expired(was[v], cutoff)
        decreases todo
      {
        ghost var w := Pick(todo);
        assert w in todo;
        var v :| v in todo;
        todo := todo - {v};
        var vm := vms[v];
        if vm.status == Staged && vm.stagedAt != ZERO_TIME && vm.stagedAt <= cutoff {
          vms := vms[v := vm.(status := Absent, stagedAt := ZERO_TIME)];
          expired := expired + {v};
        }
      }
      ghost var spec := ExpireAll(was, cutoff);
      assert forall v | v in was :: vms[v] == spec[v];
      assert vms == spec;
      assert forall v :: v in expired <==> v in was && Expired(was[v], cutoff);
    }

    /** GetActive and GetStaged: the VMs of one status, in some order. */
    method Select(status: Status) returns (ids: seq<int>)
      ensures Enumerates(ids, WithStatus(vms, status))
    {
      ids := [];
      var todo := vms.Keys;
      while todo != {}
        invariant todo <= vms.Keys
        invariant Enumerates(ids, WithStatus(vms, status) - todo)
        decreases todo
      {
        ghost var w := Pick(todo);
        assert w in todo;
        var v :| v in todo;
        todo := todo - {v};
        if vms[v].status == status {
          ids := ids + [v];
        }
      }
    }
  }
}
