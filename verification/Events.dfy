/** The event handler: which steps of the node each cluster event causes. */
module Events {
  import opened Options
  import opened Text
  import opened Net
  import P = Placement
  import opened MappingCache
  import opened Nodes
  import G = FetchGate

  /** One message: its subject and type, and the payload fields the handler looks at. */
  datatype CloudEvent = CloudEvent(
    subject: string, kind: string, action: string, phase: string, node: string, target: string,
    vmid: int, name: string, state: string, observed: P.Int64, time: Option<int>)

  /** What the outside world contributes to one call: clock, interval, cache listings and failures. */
  datatype Moment = Moment(now: int, interval: int, first: seq<Mapping>, second: seq<Mapping>, t1: Trouble, t2: Trouble)

  function TimeOf(ev: CloudEvent, now: int): int {
    if ev.time.Some? then ev.time.value else now
  }

  predicate HasSuffix(s: string, suffix: string) {
    |s| >= |suffix| && s[|s| - |suffix|..] == suffix
  }

  predicate Migrate(ev: CloudEvent, phase: string) {
    ev.action == "migrate" && ev.phase == phase
  }

  predicate IsSnapshot(ev: CloudEvent) {
    (ev.action == "state" && ev.phase == "snapshot") || HasSuffix(ev.subject, ".state.snapshot")
  }

  predicate IsBatchEnd(ev: CloudEvent) {
    HasSuffix(ev.kind, "snapshot.complete") || HasSuffix(ev.subject, ".snapshot.complete")
  }

  /** The cutover path: apply from the cache, or leave it to the queue when the cache is cold. */
  function FastActs(c: Cache, listing: seq<Mapping>, t: Trouble): seq<Act> {
    if c.ready then [Act.Apply(FastPath, listing, t)] else [Queue]
  }

  function TargetActs(self: string, c: Cache, ev: CloudEvent, t: int, listing: seq<Mapping>, tr: Trouble): seq<Act> {
    if SameNode(ev.target, self) then [Place(ev.vmid, ev.name, P.Active, t)] + FastActs(c, listing, tr) else []
  }

  function SourceActs(self: string, c: Cache, ev: CloudEvent, t: int, listing: seq<Mapping>, tr: Trouble): seq<Act> {
    if SameNode(ev.node, self) then [Place(ev.vmid, "", P.Absent, t)] + FastActs(c, listing, tr) else []
  }

  function SyncedActs(self: string, c: Cache, ev: CloudEvent, t: int, first: seq<Mapping>, second: seq<Mapping>,
                      t1: Trouble, t2: Trouble): seq<Act> {
    TargetActs(self, c, ev, t, first, t1) + SourceActs(self, c, ev, t, second, t2)
  }

  // The handler's cases, in its order; the first that matches wins.

  predicate MigrationHere(self: string, ev: CloudEvent) {
    Migrate(ev, "synced") || ((Migrate(ev, "started") || Migrate(ev, "failed")) && SameNode(ev.target, self))
  }

  function MigrationActs(self: string, c: Cache, ev: CloudEvent, t: int, first: seq<Mapping>, second: seq<Mapping>,
                         t1: Trouble, t2: Trouble): seq<Act> {
    if Migrate(ev, "started") then [Place(ev.vmid, ev.name, P.Staged, t)] + FastActs(c, first, t1)
    else if Migrate(ev, "synced") then SyncedActs(self, c, ev, t, first, second, t1, t2)
    else [Place(ev.vmid, "", P.Absent, t)] + FastActs(c, first, t1)
  }

  predicate Starts(ev: CloudEvent) {
    ev.action == "start" && ev.phase == "finished"
  }

  predicate Stops(ev: CloudEvent) {
    ev.action in ["stop", "shutdown", "destroy"] && ev.phase == "finished"
  }

  predicate LifecycleHere(self: string, ev: CloudEvent) {
    (Starts(ev) || Stops(ev)) && SameNode(ev.node, self)
  }

  /** A VM that is staged here does not become active by starting here. */
  function LifecycleActs(vms: P.VMs, ev: CloudEvent, t: int): seq<Act> {
    if Stops(ev) then [Place(ev.vmid, "", P.Absent, t), Queue]
    else if ev.vmid in vms && vms[ev.vmid].status == P.Staged then []
    else [Place(ev.vmid, ev.name, P.Active, t), Queue]
  }

  ghost function SnapshotActs(self: string, n: Node, ev: CloudEvent, now: int, interval: int): seq<Act> {
    if IsSnapshot(ev) && SameNode(ev.node, self) then
      [Act.Observe(ev.vmid, ev.name, ev.state == "running", ev.observed)]
    else if IsBatchEnd(ev) && (SameNode(ev.node, self) || Trim(ev.node) == "") &&
            G.ShouldFetch(n.gate, G.KeyOf(G.Held(n.vms)), interval, now) then [Queue]
    else []
  }

  /** The steps one event causes. */
  ghost function HandleActs(self: string, n: Node, ev: CloudEvent, w: Moment): seq<Act> {
    if MigrationHere(self, ev) then MigrationActs(self, n.cache, ev, TimeOf(ev, w.now), w.first, w.second, w.t1, w.t2)
    else if LifecycleHere(self, ev) then LifecycleActs(n.vms, ev, TimeOf(ev, w.now))
    else SnapshotActs(self, n, ev, w.now, w.interval)
  }

  /** One reconcile: a fetch that succeeds is recorded and believed; one that fails falls back to the backups. */
  function CycleActs(fetch: Option<seq<Mapping>>, now: int, t: Trouble): seq<Act> {
    if fetch.None? then [Act.Apply(FetchFailed, [], t)]
    else [RecordFetch(now), Act.Apply(Fetched, fetch.value, t)]
  }
}
