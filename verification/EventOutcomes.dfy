/**
 What becomes of a node when it handles a cluster event, for every record the VM may have:
 its status, who else is touched, and whether an apply happens at once or is queued. And
 what becomes of it when it reconciles.
 */
module EventOutcomes {
  import opened Options
  import opened Text
  import opened Net
  import B = Backup
  import BackupStores
  import P = Placement
  import opened MappingCache
  import opened Kernels
  import opened Nodes
  import opened Events
  import opened Apply
  import opened ApplySteps
  import G = FetchGate
  import opened GateRuns
  import opened RunSafety
  import opened Retention
  import opened Outcomes

  // ---- What is said of the result ----

  /**
   A record gives way to an event that carries no time or is no older, and to any event at
   all if it came from a snapshot: the two clocks are not compared.
   */
  predicate GivesWay(vms: P.VMs, v: int, t: int) {
    v in vms ==> t == P.ZERO_TIME || t >= vms[v].last || vms[v].observed > 0
  }

  ghost predicate OthersStay(n: Node, m: Node, v: int) {
    forall u | u != v :: Lookup(m.vms, u) == Lookup(n.vms, u)
  }

  /**
   v has the status since t if its record gives way, and is as it was if not, but for the
   staging time of a VM staged already; no other VM is touched.
   */
  ghost predicate Placed(n: Node, m: Node, v: int, status: P.Status, t: int) {
    && OthersStay(n, m, v) && v in m.vms
    && (if GivesWay(n.vms, v, t)
        then m.vms[v].status == status && m.vms[v].last == t && m.vms[v].observed == 0 &&
             m.vms[v].stagedAt == (if status == P.Staged then t else P.ZERO_TIME)
        else m.vms[v] == n.vms[v].(stagedAt := if status == P.Staged == n.vms[v].status then t else n.vms[v].stagedAt))
  }

  /** Nothing but the records and the queued signal has changed. */
  predicate OnlyRecords(n: Node, m: Node) {
    m == n.(vms := m.vms, queued := m.queued)
  }

  /** The event ends in an apply of all that is cached or, with nothing cached yet, in a queued reconcile. */
  ghost predicate CutsOver(n: Node, p: Path, m: Node) {
    && p.acts != []
    && if n.cache.ready then
         var a := p.acts[|p.acts| - 1];
         a.Apply? && a.origin.FastPath? && IsListing(n.cache, a.all)
       else OnlyRecords(n, m) && m.queued
  }

  predicate IsTime(ev: CloudEvent, now: int, t: int) {
    if ev.time.Some? then t == ev.time.value else t == now
  }

  /** The path is what handling the event comes to. */
  ghost predicate Handles(env: Env, n: Node, ev: CloudEvent, w: Moment, p: Path, m: Node) {
    Leads(env, n, p, m) && p.acts == HandleActs(env.self, n, ev, w)
  }

  // ---- Single steps ----

  lemma PlaceIs(env: Env, n: Node, v: int, name: string, status: P.Status, t: int, es: seq<Event>, m: Node)
    requires Step(env, n, Place(v, name, status, t), es, m)
    ensures Placed(n, m, v, status, t) && OnlyRecords(n, m) && m.queued == n.queued && es == []
    ensures GivesWay(n.vms, v, t) ==> m.vms[v].name == if name == "" && v in n.vms then n.vms[v].name else name
  {
  }

  lemma FastIs(env: Env, l: Node, listing: seq<Mapping>, t: Trouble, es: seq<Event>, m: Node)
    requires Step(env, l, FastActs(l.cache, listing, t)[0], es, m)
    ensures m.vms == l.vms && m.cache == l.cache
    ensures if l.cache.ready then IsListing(l.cache, listing) else m == l.(queued := true)
  {
  }

  /** A placement and the cutover path as two steps. */
  lemma PlacedThenFast(env: Env, n: Node, v: int, name: string, status: P.Status, t: int, es: seq<Event>, l: Node,
                       listing: seq<Mapping>, tr: Trouble, fs: seq<Event>, m: Node)
    requires Step(env, n, Place(v, name, status, t), es, l) && Step(env, l, FastActs(n.cache, listing, tr)[0], fs, m)
    ensures Placed(n, m, v, status, t) && m.cache == n.cache
    ensures if n.cache.ready then IsListing(n.cache, listing) else OnlyRecords(n, m) && m.queued
  {
    PlaceIs(env, n, v, name, status, t, es, l);
    FastIs(env, l, listing, tr, fs, m);
  }

  /** A placement and the cutover path. */
  lemma PlaceAndCut(env: Env, n: Node, p: Path, m: Node, v: int, name: string, status: P.Status, t: int,
                    listing: seq<Mapping>, tr: Trouble)
    requires Leads(env, n, p, m) && p.acts == [Place(v, name, status, t)] + FastActs(n.cache, listing, tr)
    ensures Placed(n, m, v, status, t) && CutsOver(n, p, m) && m.cache == n.cache
  {
    LeadsInTwo(env, n, p, m);
    PlacedThenFast(env, n, v, name, status, t, p.ess[0], p.ns[1], listing, tr, p.ess[1], m);
  }

  lemma PlaceAndQueue(env: Env, n: Node, p: Path, m: Node, v: int, name: string, status: P.Status, t: int)
    requires Leads(env, n, p, m) && p.acts == [Place(v, name, status, t), Queue]
    ensures Placed(n, m, v, status, t) && OnlyRecords(n, m) && m.queued
  {
    LeadsInTwo(env, n, p, m);
    PlaceIs(env, n, v, name, status, t, p.ess[0], p.ns[1]);
  }

  // ---- A VM starts or stops here ----

  predicate Happens(self: string, ev: CloudEvent, actions: seq<string>) {
    ev.action in actions && ev.phase == "finished" && SameNode(ev.node, self)
  }

  /** A stop, shutdown or destroy makes the VM absent, whatever it was, and queues a reconcile. */
  lemma StopHandled(env: Env, n: Node, ev: CloudEvent, w: Moment, p: Path, m: Node, t: int)
    requires Handles(env, n, ev, w, p, m) && IsTime(ev, w.now, t)
    requires Happens(env.self, ev, ["stop", "shutdown", "destroy"])
    ensures Placed(n, m, ev.vmid, P.Absent, t) && OnlyRecords(n, m) && m.queued
  {
    PlaceAndQueue(env, n, p, m, ev.vmid, "", P.Absent, t);
  }

  /** A start makes it active and queues a reconcile, unless it is staged: then nothing happens at all. */
  lemma StartHandled(env: Env, n: Node, ev: CloudEvent, w: Moment, p: Path, m: Node, t: int)
    requires Handles(env, n, ev, w, p, m) && IsTime(ev, w.now, t) && Happens(env.self, ev, ["start"])
    ensures if ev.vmid in n.vms && n.vms[ev.vmid].status == P.Staged then m == n
            else Placed(n, m, ev.vmid, P.Active, t) && OnlyRecords(n, m) && m.queued
  {
    if !(ev.vmid in n.vms && n.vms[ev.vmid].status == P.Staged) {
      PlaceAndQueue(env, n, p, m, ev.vmid, ev.name, P.Active, t);
    }
  }

  // ---- A VM migrates ----

  predicate Migrates(ev: CloudEvent, phase: string) {
    ev.action == "migrate" && ev.phase == phase
  }

  lemma StartedHandled(env: Env, n: Node, ev: CloudEvent, w: Moment, p: Path, m: Node, t: int)
    requires Handles(env, n, ev, w, p, m) && IsTime(ev, w.now, t)
    requires Migrates(ev, "started") && SameNode(ev.target, env.self)
    ensures Placed(n, m, ev.vmid, P.Staged, t) && CutsOver(n, p, m)
  {
    PlaceAndCut(env, n, p, m, ev.vmid, ev.name, P.Staged, t, w.first, w.t1);
  }

  lemma FailedHandled(env: Env, n: Node, ev: CloudEvent, w: Moment, p: Path, m: Node, t: int)
    requires Handles(env, n, ev, w, p, m) && IsTime(ev, w.now, t)
    requires Migrates(ev, "failed") && SameNode(ev.target, env.self)
    ensures Placed(n, m, ev.vmid, P.Absent, t) && CutsOver(n, p, m)
  {
    PlaceAndCut(env, n, p, m, ev.vmid, "", P.Absent, t, w.first, w.t1);
  }

  /** migrate.synced makes the VM active on the target and absent on the source, and concerns nobody else. */
  lemma SyncedHandled(env: Env, n: Node, ev: CloudEvent, w: Moment, p: Path, m: Node, t: int)
    requires Handles(env, n, ev, w, p, m) && IsTime(ev, w.now, t) && Migrates(ev, "synced")
    ensures SameNode(ev.target, env.self) && !SameNode(ev.node, env.self) ==>
              Placed(n, m, ev.vmid, P.Active, t) && CutsOver(n, p, m)
    ensures SameNode(ev.node, env.self) ==> Placed(n, m, ev.vmid, P.Absent, t) && CutsOver(n, p, m)
    ensures !SameNode(ev.target, env.self) && !SameNode(ev.node, env.self) ==> m == n
  {
    var c := n.cache;
    if SameNode(ev.target, env.self) {
      if SameNode(ev.node, env.self) {
        assert p.acts == [Place(ev.vmid, ev.name, P.Active, t), FastActs(c, w.first, w.t1)[0],
                          Place(ev.vmid, "", P.Absent, t), FastActs(c, w.second, w.t2)[0]];
        SyncedBoth(env, n, p, m, ev, w, t);
      } else {
        assert p.acts == TargetActs(env.self, c, ev, t, w.first, w.t1);
        PlaceAndCut(env, n, p, m, ev.vmid, ev.name, P.Active, t, w.first, w.t1);
      }
    } else if SameNode(ev.node, env.self) {
      assert p.acts == SourceActs(env.self, c, ev, t, w.second, w.t2);
      PlaceAndCut(env, n, p, m, ev.vmid, "", P.Absent, t, w.second, w.t2);
    }
  }

  /** A node that is both source and target first takes the VM on and then lets it go. */
  lemma SyncedBoth(env: Env, n: Node, p: Path, m: Node, ev: CloudEvent, w: Moment, t: int)
    requires Leads(env, n, p, m) && SameNode(ev.target, env.self) && SameNode(ev.node, env.self)
    requires p.acts == [Place(ev.vmid, ev.name, P.Active, t), FastActs(n.cache, w.first, w.t1)[0],
                        Place(ev.vmid, "", P.Absent, t), FastActs(n.cache, w.second, w.t2)[0]]
    ensures Placed(n, m, ev.vmid, P.Absent, t) && CutsOver(n, p, m)
  {
    var v := ev.vmid;
    var l := p.ns[2];
    FourSteps(env, n, p, m);
    PlacedThenFast(env, n, v, ev.name, P.Active, t, p.ess[0], p.ns[1], w.first, w.t1, p.ess[1], l);
    PlacedThenFast(env, l, v, "", P.Absent, t, p.ess[2], p.ns[3], w.second, w.t2, p.ess[3], m);
    PlacedTwice(n, l, m, v, t);
  }

  lemma PlacedTwice(n: Node, l: Node, m: Node, v: int, t: int)
    requires Placed(n, l, v, P.Active, t) && Placed(l, m, v, P.Absent, t)
    ensures Placed(n, m, v, P.Absent, t)
  {
  }

  lemma FourSteps(env: Env, n: Node, p: Path, m: Node)
    requires Leads(env, n, p, m) && |p.acts| == 4
    ensures Step(env, n, p.acts[0], p.ess[0], p.ns[1]) && Step(env, p.ns[1], p.acts[1], p.ess[1], p.ns[2])
    ensures Step(env, p.ns[2], p.acts[2], p.ess[2], p.ns[3]) && Step(env, p.ns[3], p.acts[3], p.ess[3], m)
  {
  }

  // ---- Snapshots ----

  predicate EndsWith(s: string, suffix: string) {
    exists i :: 0 <= i <= |s| && s[i..] == suffix
  }

  lemma SuffixIs(s: string, suffix: string)
    ensures HasSuffix(s, suffix) <==> EndsWith(s, suffix)
  {
    if HasSuffix(s, suffix) {
      assert s[|s| - |suffix|..] == suffix;
    }
    if i :| 0 <= i <= |s| && s[i..] == suffix {
      assert i == |s| - |suffix|;
    }
  }

  predicate Reports(ev: CloudEvent) {
    (ev.action == "state" && ev.phase == "snapshot") || EndsWith(ev.subject, ".state.snapshot")
  }

  predicate EndsBatch(ev: CloudEvent) {
    EndsWith(ev.kind, "snapshot.complete") || EndsWith(ev.subject, ".snapshot.complete")
  }

  /** None of the cases of migrations, starts and stops. */
  predicate NoLifecycle(self: string, ev: CloudEvent) {
    && !Migrates(ev, "synced")
    && !((Migrates(ev, "started") || Migrates(ev, "failed")) && SameNode(ev.target, self))
    && !Happens(self, ev, ["start", "stop", "shutdown", "destroy"])
  }

  /** A snapshot no older than the record makes a running VM active, any other absent; but a staged one waits. */
  ghost predicate Observed(n: Node, m: Node, v: int, running: bool, observed: P.Int64) {
    && OthersStay(n, m, v) && v in m.vms
    && if v in n.vms && n.vms[v].observed > observed then m.vms[v] == n.vms[v]
       else if v in n.vms && n.vms[v].status == P.Staged && !running then
         m.vms[v].status == P.Staged && m.vms[v].stagedAt == n.vms[v].stagedAt && m.vms[v].last == n.vms[v].last
       else if v in n.vms && n.vms[v].last > observed then m.vms[v] == n.vms[v]
       else m.vms[v].status == (if running then P.Active else P.Absent) &&
            m.vms[v].last == observed && m.vms[v].observed == observed
  }

  lemma SnapshotHandled(env: Env, n: Node, ev: CloudEvent, w: Moment, p: Path, m: Node)
    requires Handles(env, n, ev, w, p, m) && NoLifecycle(env.self, ev)
    requires Reports(ev) && SameNode(ev.node, env.self)
    ensures Observed(n, m, ev.vmid, ev.state == "running", ev.observed)
    ensures OnlyRecords(n, m) && m.queued == n.queued
  {
    SuffixIs(ev.subject, ".state.snapshot");
    assert p.acts == [Act.Observe(ev.vmid, ev.name, ev.state == "running", ev.observed)];
    LeadsInOne(env, n, p, m);
  }

  /** The VMs a fingerprint is made of: the active and the staged ones. */
  lemma HeldIs(vms: P.VMs, v: int)
    ensures v in G.Held(vms) <==> v in vms && (vms[v].status == P.Active || vms[v].status == P.Staged)
  {
  }

  /** The fetch that succeeded last among the first k steps is young and saw the VMs held now. */
  ghost predicate Fresh(ns: seq<Node>, acts: seq<Act>, k: nat, interval: int, now: int)
    requires k <= |acts| < |ns|
  {
    var fs := History(ns, acts, k);
    interval > 0 && exists i :: G.LastSuccess(fs, i) && fs[i].held == G.Held(ns[k].vms) && now - fs[i].now < interval
  }

  lemma BatchEndIs(env: Env, n: Node, ev: CloudEvent, w: Moment, p: Path, m: Node)
    requires Handles(env, n, ev, w, p, m) && NoLifecycle(env.self, ev) && EndsBatch(ev)
    requires !(Reports(ev) && SameNode(ev.node, env.self)) && (SameNode(ev.node, env.self) || Trim(ev.node) == "")
    ensures m == n.(queued := n.queued || G.ShouldFetch(n.gate, G.KeyOf(G.Held(n.vms)), w.interval, w.now))
  {
    SuffixIs(ev.subject, ".state.snapshot");
    SuffixIs(ev.subject, ".snapshot.complete");
    SuffixIs(ev.kind, "snapshot.complete");
    var due := G.ShouldFetch(n.gate, G.KeyOf(G.Held(n.vms)), w.interval, w.now);
    assert p.acts == if due then [Queue] else [];
    if due {
      LeadsInOne(env, n, p, m);
    }
  }

  /** At the end of a batch, in every run, a reconcile is queued exactly if the last fetch is not fresh enough. */
  lemma BatchEndHandled(env: Env, ns: seq<Node>, acts: seq<Act>, ess: seq<seq<Event>>, k: nat, ev: CloudEvent,
                        w: Moment, p: Path, m: Node)
    requires Steps(env, ns, acts, ess) && Boot(ns[0]) && k <= |acts|
    requires Handles(env, ns[k], ev, w, p, m) && NoLifecycle(env.self, ev) && EndsBatch(ev)
    requires !(Reports(ev) && SameNode(ev.node, env.self)) && (SameNode(ev.node, env.self) || Trim(ev.node) == "")
    requires 0 <= w.now && w.interval <= G.MAX_DURATION
    ensures m == ns[k].(queued := ns[k].queued || !Fresh(ns, acts, k, w.interval, w.now))
  {
    BatchEndIs(env, ns[k], ev, w, p, m);
    SkipsOnlyWhenRedundant(env, ns, acts, ess, k, w.interval, w.now);
  }

  /** Every other event leaves the node as it is. */
  lemma OthersIgnored(env: Env, n: Node, ev: CloudEvent, w: Moment, p: Path, m: Node)
    requires Handles(env, n, ev, w, p, m) && NoLifecycle(env.self, ev)
    requires !(Reports(ev) && SameNode(ev.node, env.self))
    requires !(EndsBatch(ev) && (SameNode(ev.node, env.self) || Trim(ev.node) == ""))
    ensures m == n
  {
    SuffixIs(ev.subject, ".state.snapshot");
    SuffixIs(ev.subject, ".snapshot.complete");
    SuffixIs(ev.kind, "snapshot.complete");
    assert p.acts == [];
  }

  // ---- One reconcile ----

  /** Outside of applies nothing moves the records, the signal and the gate of a reconcile. */
  predicate SamePlaces(n: Node, m: Node) {
    m.vms == n.vms && m.queued == n.queued
  }

  lemma FetchedApply(env: Env, l: Node, ms: seq<Mapping>, t: Trouble, es: seq<Event>, m: Node, v: int)
    requires Step(env, l, Act.Apply(Fetched, ms, t), es, m)
    ensures SamePlaces(l, m) && m.gate == l.gate
    ensures m.cache.ready && m.cache.pending == map[] && At(m.cache.byVMID, v) == OfVM(ms, v)
    ensures t.kernel.nft.None? && IsActive(l.vms, v) && OfVM(ms, v) != [] ==>
              At(m.core.lastApplied, v) == OfVM(ms, v)
  {
    RebuildFiled(ms);
    WhatIsProgrammed(env, l, Act.Apply(Fetched, ms, t), es, m, v);
    LastAppliedAfter(env, l, Act.Apply(Fetched, ms, t), es, m);
  }

  /**
   A fetch that succeeds is remembered with its time and the VMs held, replaces the whole
   cache, and programs every active VM it lists with exactly what it lists for it.
   */
  lemma FetchHandled(env: Env, n: Node, ms: seq<Mapping>, now: int, t: Trouble, p: Path, m: Node, v: int)
    requires Leads(env, n, p, m) && p.acts == CycleActs(Some(ms), now, t)
    ensures SamePlaces(n, m) && m.gate == G.Gate(now, G.KeyOf(G.Held(n.vms)))
    ensures m.cache.ready && m.cache.pending == map[] && At(m.cache.byVMID, v) == OfVM(ms, v)
    ensures t.kernel.nft.None? && IsActive(n.vms, v) && OfVM(ms, v) != [] ==>
              At(m.core.lastApplied, v) == OfVM(ms, v)
  {
    LeadsInTwo(env, n, p, m);
    FetchedApply(env, p.ns[1], ms, t, p.ess[1], m, v);
  }

  /**
   A fetch that fails leaves cache and gate alone and programs every active VM with its
   backup or, if there is none to be had, with what it was programmed with last.
   */
  lemma FailureHandled(env: Env, n: Node, now: int, t: Trouble, p: Path, m: Node, v: int)
    requires Leads(env, n, p, m) && p.acts == CycleActs(None, now, t)
    ensures SamePlaces(n, m) && m.gate == n.gate && m.cache == n.cache
    ensures t.kernel.nft.None? && IsActive(n.vms, v) ==>
              At(m.core.lastApplied, v) ==
              if CanRead(n.backup, v, t.noRead) && Usable(n.backup, v) != [] then Usable(n.backup, v)
              else At(n.core.lastApplied, v)
  {
    LeadsInOne(env, n, p, m);
    var a := Act.Apply(FetchFailed, [], t);
    WhatIsProgrammed(env, n, a, p.ess[0], m, v);
    LastAppliedAfter(env, n, a, p.ess[0], m);
  }

  /** Taking the queued signal clears it; what is queued meanwhile comes after. */
  lemma QueueTaken(env: Env, n: Node, fetch: Option<seq<Mapping>>, now: int, t: Trouble, p: Path, m: Node)
    requires Leads(env, n, p, m) && p.acts == [Dequeue] + CycleActs(fetch, now, t)
    ensures !m.queued && m.vms == n.vms
  {
    if fetch.None? {
      LeadsInTwo(env, n, p, m);
    } else {
      LeadsInThree(env, n, p, m);
    }
  }

  lemma LeadsInThree(env: Env, n: Node, p: Path, m: Node)
    requires Leads(env, n, p, m) && |p.acts| == 3
    ensures Step(env, n, p.acts[0], p.ess[0], p.ns[1]) && Step(env, p.ns[1], p.acts[1], p.ess[1], p.ns[2])
    ensures Step(env, p.ns[2], p.acts[2], p.ess[2], m)
  {
  }

  // ---- Startup ----

  /** Some readable backup file of a positive VMID lists x. */
  predicate InSomeFile(files: map<int, B.Bytes>, bad: set<int>, x: Mapping) {
    exists v :: v in files && v > 0 && v !in bad && B.Lists(files[v].doc, x)
  }

  /**
   A process that starts while NetBox cannot be reached begins with exactly the mappings of
   the backups that can be read, each under its VMID, and with a cold cache if there is none.
   */
  lemma PrimedFromBackups(env: Env, n: Node, bad: set<int>, seed: seq<Mapping>, p: Path, m: Node, v: int, x: Mapping)
    requires Boot(n) && Leads(env, n, p, m)
    requires p.acts == [WarmBackup(B.Listed(bad))] + (if seed == [] then [] else [SeedCache(seed)])
    requires (set s | s in seed) == BackupStores.KnownMappings(B.Warm(n.backup, B.Listed(bad)))
    ensures x in At(m.cache.byVMID, v) <==> x.vmid == v && InSomeFile(n.backup.files, bad, x)
    ensures m.cache.ready <==> exists s :: InSomeFile(n.backup.files, bad, s)
  {
    var known := BackupStores.KnownMappings(B.Warm(n.backup, B.Listed(bad)));
    forall s ensures s in seed <==> InSomeFile(n.backup.files, bad, s) {
      BackupStores.KnownAfterScan(n.backup.files, bad, s);
      assert s in seed <==> s in (set y | y in seed);
    }
    if seed == [] {
      LeadsInOne(env, n, p, m);
    } else {
      assert seed[0] in seed;
      LeadsInTwo(env, n, p, m);
      RebuildFiled(seed);
      OfVMAll(seed, v);
    }
  }
}
