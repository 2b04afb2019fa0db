/**
 What takes a VM out of staging: among all steps of a node, and among the events of the
 cluster.
 */
module Staging {
  import opened Options
  import P = Placement
  import opened Text
  import opened Net
  import opened MappingCache
  import opened Kernels
  import opened Nodes
  import opened Events

  /** The steps that take v out of staging, given its record. */
  predicate Unstages(vm: P.VM, a: Act, v: int) {
    match a
    case Place(u, _, status, t) => u == v && status != P.Staged && !P.Rejected(vm, t, 0)
    case Observe(u, _, running, observed) => u == v && running && observed >= vm.observed && observed >= vm.last
    case ExpireStaged(cutoff) => vm.stagedAt != P.ZERO_TIME && vm.stagedAt <= cutoff
    case Apply(o, _, _) => o.Hook? && NamesVM(o.d) && o.d.vmid == v && !P.Rejected(vm, o.now, 0)
    case _ => false
  }

  /** Of these, the ones that make v active. */
  predicate Activates(a: Act) {
    || (a.Place? && a.status == P.Active)
    || a.Observe?
    || (a.Apply? && a.origin.Hook? && !IsDeleted(a.origin.d))
  }

  /** The record of v after a step. */
  function RecordAfter(vm: P.VM, a: Act, v: int): P.VM {
    match a
    case Place(u, name, status, t) => if u == v then P.Lifecycle(Some(vm), name, status, t) else vm
    case Observe(u, name, running, observed) => if u == v then P.Snapshot(Some(vm), name, running, observed) else vm
    case ExpireStaged(cutoff) => P.Expire(vm, cutoff)
    case Apply(o, _, _) =>
      if !o.Hook? || !NamesVM(o.d) || o.d.vmid != v then vm
      else if IsDeleted(o.d) then P.Lifecycle(Some(vm), "", P.Absent, o.now)
      else P.Lifecycle(Some(vm), o.d.name, P.Active, o.now)
    case _ => vm
  }

  lemma StepRecord(env: Env, n: Node, a: Act, es: seq<Event>, m: Node, v: int)
    requires Step(env, n, a, es, m) && v in n.vms
    ensures Lookup(m.vms, v) == Some(RecordAfter(n.vms[v], a, v))
  {
    if a.Apply? {
      assert m.vms == PreparedVms(n, a.origin);
      PreparedRecord(n, a, v);
    }
  }

  lemma PreparedRecord(n: Node, a: Act, v: int)
    requires a.Apply? && v in n.vms
    ensures Lookup(PreparedVms(n, a.origin), v) == Some(RecordAfter(n.vms[v], a, v))
  {
  }

  lemma RecordLeaves(vm: P.VM, a: Act, v: int)
    requires vm.status == P.Staged
    ensures RecordAfter(vm, a, v).status != P.Staged <==> Unstages(vm, a, v)
    ensures RecordAfter(vm, a, v).status == P.Active <==> Unstages(vm, a, v) && Activates(a)
  {
  }

  /**
   A staged VM leaves staging exactly by an accepted placement elsewhere, a running snapshot
   that is not older than its record, expiry, or an accepted VM delta that names it; a
   delta makes it active although nobody has said that it runs here.
   */
  lemma LeavesStagedIff(env: Env, n: Node, a: Act, es: seq<Event>, m: Node, v: int)
    requires Step(env, n, a, es, m) && v in n.vms && n.vms[v].status == P.Staged
    ensures v in m.vms
    ensures m.vms[v].status != P.Staged <==> Unstages(n.vms[v], a, v)
    ensures m.vms[v].status == P.Active <==> Unstages(n.vms[v], a, v) && Activates(a)
  {
    StepRecord(env, n, a, es, m, v);
    RecordLeaves(n.vms[v], a, v);
  }

  // ---- Events ----

  /** The record of v after several steps. */
  function Records(vm: P.VM, acts: seq<Act>, v: int): P.VM {
    if acts == [] then vm else RecordAfter(Records(vm, acts[..|acts| - 1], v), acts[|acts| - 1], v)
  }

  lemma OneMore(vm: P.VM, acts: seq<Act>, a: Act, v: int)
    ensures Records(vm, acts + [a], v) == RecordAfter(Records(vm, acts, v), a, v)
  {
    assert (acts + [a])[..|acts|] == acts;
  }

  lemma {:induction false} PathRecord(env: Env, n: Node, p: Path, m: Node, v: int)
    requires Leads(env, n, p, m) && v in n.vms
    ensures Lookup(m.vms, v) == Some(Records(n.vms[v], p.acts, v))
    decreases |p.acts|
  {
    if p.acts != [] {
      var k := |p.acts| - 1;
      LeadsFront(env, n, p, m);
      PathRecord(env, n, Front(p), p.ns[k], v);
      StepRecord(env, p.ns[k], p.acts[k], p.ess[k], m, v);
    }
  }

  /** The cutover path leaves every record alone. */
  lemma FastKeeps(vm: P.VM, acts: seq<Act>, c: Cache, listing: seq<Mapping>, t: Trouble, v: int)
    ensures Records(vm, acts + FastActs(c, listing, t), v) == Records(vm, acts, v)
  {
    OneMore(vm, acts, FastActs(c, listing, t)[0], v);
  }

  predicate SnapshotHere(self: string, ev: CloudEvent) {
    !MigrationHere(self, ev) && !LifecycleHere(self, ev) && IsSnapshot(ev) && SameNode(ev.node, self)
  }

  /** The end of the migration, a stop or a running snapshot, each on this node. */
  predicate EndsStaging(self: string, ev: CloudEvent) {
    || (Migrate(ev, "synced") && (SameNode(ev.target, self) || SameNode(ev.node, self)))
    || (Migrate(ev, "failed") && SameNode(ev.target, self))
    || (Stops(ev) && LifecycleHere(self, ev) && !MigrationHere(self, ev))
    || (SnapshotHere(self, ev) && ev.state == "running")
  }

  /** The event is as new as the record of the VM asks for. */
  predicate IsNews(self: string, vm: P.VM, ev: CloudEvent, now: int) {
    if SnapshotHere(self, ev) then ev.observed >= vm.observed && ev.observed >= vm.last
    else !P.Rejected(vm, TimeOf(ev, now), 0)
  }

  /** It says that the VM runs here. */
  predicate SaysHere(self: string, ev: CloudEvent) {
    (Migrate(ev, "synced") && SameNode(ev.target, self) && !SameNode(ev.node, self)) || SnapshotHere(self, ev)
  }

  /** The status that handling an event gives a staged VM. */
  predicate Handled(self: string, vm: P.VM, status: P.Status, ev: CloudEvent, now: int, v: int) {
    var ends := ev.vmid == v && EndsStaging(self, ev) && IsNews(self, vm, ev, now);
    && (status != P.Staged <==> ends)
    && (status == P.Active <==> ends && SaysHere(self, ev))
  }

  lemma OneRecord(vm: P.VM, a: Act, rest: seq<Act>, v: int)
    requires |rest| == 0 || (|rest| == 1 && (rest[0].Queue? || Fast(rest[0])))
    ensures Records(vm, [a] + rest, v) == RecordAfter(vm, a, v)
  {
    assert [] + [a] == [a];
    OneMore(vm, [], a, v);
    if rest == [] {
      assert [a] + rest == [a];
    } else {
      assert [a] + rest == [a] + [rest[0]];
      OneMore(vm, [a], rest[0], v);
    }
  }

  predicate Fast(a: Act) {
    a.Apply? && a.origin.FastPath?
  }

  lemma TargetRecord(self: string, vm: P.VM, c: Cache, ev: CloudEvent, t: int, listing: seq<Mapping>, tr: Trouble,
                     v: int)
    ensures var r := Records(vm, TargetActs(self, c, ev, t, listing, tr), v);
            r == if SameNode(ev.target, self) then RecordAfter(vm, Place(ev.vmid, ev.name, P.Active, t), v) else vm
  {
    if SameNode(ev.target, self) {
      OneRecord(vm, Place(ev.vmid, ev.name, P.Active, t), FastActs(c, listing, tr), v);
    }
  }

  lemma SourceRecord(self: string, vm: P.VM, acts: seq<Act>, c: Cache, ev: CloudEvent, t: int, listing: seq<Mapping>,
                     tr: Trouble, v: int)
    ensures var r, was := Records(vm, acts + SourceActs(self, c, ev, t, listing, tr), v), Records(vm, acts, v);
            r == if SameNode(ev.node, self) then RecordAfter(was, Place(ev.vmid, "", P.Absent, t), v) else was
  {
    var gone := Place(ev.vmid, "", P.Absent, t);
    if SameNode(ev.node, self) {
      OneMore(vm, acts, gone, v);
      FastKeeps(vm, acts + [gone], c, listing, tr, v);
      assert acts + ([gone] + FastActs(c, listing, tr)) == acts + [gone] + FastActs(c, listing, tr);
    } else {
      assert acts + [] == acts;
    }
  }

  /** If source and target are one node, both placements carry the same time, so both are accepted or both rejected. */
  lemma PlacedTwice(vm: P.VM, name: string, t: int, v: int)
    requires vm.status == P.Staged
    ensures var there := RecordAfter(vm, Place(v, name, P.Active, t), v);
            && there.status == (if P.Rejected(vm, t, 0) then P.Staged else P.Active)
            && RecordAfter(there, Place(v, "", P.Absent, t), v).status ==
               if P.Rejected(vm, t, 0) then P.Staged else P.Absent
  {
  }

  lemma SyncedHandled(self: string, vm: P.VM, c: Cache, ev: CloudEvent, w: Moment, v: int)
    requires vm.status == P.Staged && Migrate(ev, "synced")
    ensures var acts := SyncedActs(self, c, ev, TimeOf(ev, w.now), w.first, w.second, w.t1, w.t2);
            Handled(self, vm, Records(vm, acts, v).status, ev, w.now, v)
  {
    var t := TimeOf(ev, w.now);
    TargetRecord(self, vm, c, ev, t, w.first, w.t1, v);
    SourceRecord(self, vm, TargetActs(self, c, ev, t, w.first, w.t1), c, ev, t, w.second, w.t2, v);
    if ev.vmid == v {
      PlacedTwice(vm, ev.name, t, v);
    }
  }

  lemma MigrationHandled(self: string, vm: P.VM, c: Cache, ev: CloudEvent, w: Moment, v: int)
    requires vm.status == P.Staged && MigrationHere(self, ev)
    ensures var acts := MigrationActs(self, c, ev, TimeOf(ev, w.now), w.first, w.second, w.t1, w.t2);
            Handled(self, vm, Records(vm, acts, v).status, ev, w.now, v)
  {
    var t := TimeOf(ev, w.now);
    if Migrate(ev, "synced") {
      SyncedHandled(self, vm, c, ev, w, v);
    } else if Migrate(ev, "started") {
      OneRecord(vm, Place(ev.vmid, ev.name, P.Staged, t), FastActs(c, w.first, w.t1), v);
    } else {
      OneRecord(vm, Place(ev.vmid, "", P.Absent, t), FastActs(c, w.first, w.t1), v);
    }
  }

  lemma OtherHandled(self: string, n: Node, ev: CloudEvent, w: Moment, v: int)
    requires !MigrationHere(self, ev) && v in n.vms && n.vms[v].status == P.Staged
    ensures Handled(self, n.vms[v], Records(n.vms[v], HandleActs(self, n, ev, w), v).status, ev, w.now, v)
  {
    var acts, vm := HandleActs(self, n, ev, w), n.vms[v];
    if acts != [] {
      assert acts == [acts[0]] + acts[1..];
      OneRecord(vm, acts[0], acts[1..], v);
    }
  }

  /**
   Handling an event takes a staged VM out of staging exactly if it is the VM's own
   migrate.synced or migrate.failed, its stop here or a snapshot of it running here, and
   news to its record; and makes it active exactly if it says that the VM runs here. Its
   start is not among them.
   */
  lemma EventsThatUnstage(env: Env, n: Node, ev: CloudEvent, w: Moment, p: Path, m: Node, v: int)
    requires v in n.vms && n.vms[v].status == P.Staged
    requires Leads(env, n, p, m) && p.acts == HandleActs(env.self, n, ev, w)
    ensures v in m.vms
    ensures m.vms[v].status != P.Staged <==>
            ev.vmid == v && EndsStaging(env.self, ev) && IsNews(env.self, n.vms[v], ev, w.now)
    ensures m.vms[v].status == P.Active <==> m.vms[v].status != P.Staged && SaysHere(env.self, ev)
  {
    PathRecord(env, n, p, m, v);
    if MigrationHere(env.self, ev) {
      MigrationHandled(env.self, n.vms[v], n.cache, ev, w, v);
    } else {
      OtherHandled(env.self, n, ev, w, v);
    }
  }
}
