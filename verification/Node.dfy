/**
 One node: its records, its backups, its caches and its kernel, and every step it can
 take. A step happens as a whole; failures are part of the step that meets them.
 */
module Nodes {
  import opened Options
  import opened Text
  import opened Net
  import B = Backup
  import BackupStores
  import P = Placement
  import opened MappingCache
  import opened Kernels
  import opened Apply
  import opened ApplySteps
  import G = FetchGate

  /** What a node is given: how addresses are written and parsed, and its own name. */
  datatype Env = Env(text: Addr -> string, parse: Parser, self: string)

  datatype Node = Node(
    vms: P.VMs,
    backup: B.Store,
    cache: Cache,
    core: Core,
    kernel: Kernel,
    gate: G.Gate,
    queued: bool)

  /** Everything that can go wrong during one apply. */
  datatype Trouble = Trouble(kernel: Faults, noRead: set<int>)

  // ---- Webhook deltas outside the cache ----

  predicate NamesVM(d: Delta) {
    d.hasVMID && Trim(d.name) != "" && IsVM(d)
  }

  /** A delta that names a VM with its VMID also says whether it is active. */
  function DeltaVms(vms: P.VMs, d: Delta, now: int): P.VMs {
    if !NamesVM(d) then vms
    else if IsDeleted(d) then P.SetStatus(vms, d.vmid, "", P.Absent, now)
    else P.SetStatus(vms, d.vmid, d.name, P.Active, now)
  }

  predicate IsActive(vms: P.VMs, v: int) {
    v in vms && vms[v].status == P.Active
  }

  /** Backed-up mappings a delta does not speak about. */
  function Kept(parse: Parser, existing: seq<Mapping>, internal: Addr, outside: seq<string>): seq<Mapping> {
    if existing == [] then []
    else
      var m := existing[|existing| - 1];
      Kept(parse, existing[..|existing| - 1], internal, outside) +
      (if m.internal == internal || Parses(parse, outside, m.external) then [] else [m])
  }

  function Merged(parse: Parser, existing: seq<Mapping>, d: Delta, internal: Addr, v: int): seq<Mapping> {
    Kept(parse, existing, internal, d.outside) +
    (if IsDeleted(d) then [] else Entries(parse, d.outside, internal, v, d.name))
  }

  /** Whether syncBackupFromDelta gets as far as reading the VM's backup. */
  predicate SyncsIP(parse: Parser, vms: P.VMs, d: Delta, v: int) {
    v > 0 && !IsVM(d) && IsIP(d) && IsActive(vms, v) && parse(d.internal).Some?
  }

  function DeltaWrites(parse: Parser, d: Delta, v: int, r: B.LoadResult): map<int, Option<B.Bytes>>
    requires parse(d.internal).Some?
  {
    var merged := Merged(parse, FoundIn(r), d, parse(d.internal).value, v);
    if r.Error? || (merged == [] && !r.Found?) then map[] else map[v := B.Payload(merged)]
  }

  function SyncBackup(parse: Parser, c: Cache, vms: P.VMs, b: B.Store, d: Delta, noRead: set<int>): B.Store {
    var v := Target(c, d, d.name);
    if v > 0 && IsVM(d) && IsDeleted(d) then B.EnqueueAll(b, map[v := None])
    else if SyncsIP(parse, vms, d, v) then
      B.EnqueueAll(B.LoadAll(b, {v}, noRead), DeltaWrites(parse, d, v, B.LoadResultOf(b, v, noRead)))
    else b
  }

  // ---- Applies ----

  /** Where an apply comes from. A hook carries its delta, the time and the backup reads that fail. */
  datatype Origin =
    | Fetched
    | FetchFailed
    | FastPath
    | Hook(d: Delta, now: int, noRead: set<int>)

  function SourceOf(o: Origin): Source {
    match o
    case Fetched => FullFetch
    case FetchFailed => BackupFallback
    case FastPath => CachedMappings
    case Hook(_, _, _) => WebhookDelta
  }

  function PreparedCache(env: Env, n: Node, o: Origin, all: seq<Mapping>): Cache {
    match o
    case Fetched => Rebuild(all)
    case Hook(d, _, _) => Update(env.parse, Readied(n.cache), d)
    case _ => n.cache
  }

  function PreparedVms(n: Node, o: Origin): P.VMs {
    if o.Hook? then DeltaVms(n.vms, o.d, o.now) else n.vms
  }

  function PreparedBackup(env: Env, n: Node, o: Origin, all: seq<Mapping>): B.Store {
    if o.Hook? then SyncBackup(env.parse, PreparedCache(env, n, o, all), PreparedVms(n, o), n.backup, o.d, o.noRead)
    else n.backup
  }

  /** The mappings an apply is handed: none, the fetch's, or the cache's in some order. */
  ghost predicate Listed(env: Env, n: Node, o: Origin, all: seq<Mapping>) {
    match o
    case Fetched => true
    case FetchFailed => all == []
    case FastPath => n.cache.ready && IsListing(n.cache, all)
    case Hook(_, _, _) => IsListing(PreparedCache(env, n, o, all), all)
  }

  function JobOf(env: Env, n: Node, o: Origin, all: seq<Mapping>, t: Trouble): Job {
    Job(SourceOf(o), all, P.WithStatus(PreparedVms(n, o), P.Active),
        PreparedBackup(env, n, o, all), n.core.lastApplied, t.noRead)
  }

  /** Addresses this service is responsible for: those cached and those backed up. */
  ghost function Managed(c: Cache, b: B.Store): set<Addr> {
    Externals(c.byVMID) + (set n, x | n in c.pending && x in c.pending[n] :: x.external) +
    (set x | x in BackupStores.KnownMappings(b) :: x.external)
  }

  ghost predicate Applies(env: Env, n: Node, o: Origin, all: seq<Mapping>, t: Trouble, es: seq<Event>, m: Node) {
    var j := JobOf(env, n, o, all, t);
    var cache, backup := PreparedCache(env, n, o, all), BackupAfter(j);
    && Listed(env, n, o, all)
    && m.vms == PreparedVms(n, o) && m.cache == cache && m.backup == backup
    && m.gate == n.gate && m.queued == n.queued
    && ApplyStep(env.text, n.core, n.kernel, Applied(j), Managed(cache, backup), t.kernel, es, m.core, m.kernel)
  }

  // ---- Steps ----

  datatype Act =
    | Place(v: int, name: string, status: P.Status, t: int)
    | Observe(v: int, name: string, running: bool, observed: P.Int64)
    | ExpireStaged(cutoff: int)
    | Queue
    | Dequeue
    | RecordFetch(now: int)
    | SeedCache(ms: seq<Mapping>)
    | WarmBackup(scan: B.Scan)
    | FlushBackup(fails: map<int, Option<B.Bytes>>)
    | CloseBackup(fails: map<int, Option<B.Bytes>>)
    | FlushRoutes(f: Faults)
    | Apply(origin: Origin, all: seq<Mapping>, trouble: Trouble)

  ghost predicate Step(env: Env, n: Node, a: Act, es: seq<Event>, m: Node) {
    match a
    case Place(v, name, status, t) => es == [] && m == n.(vms := P.SetStatus(n.vms, v, name, status, t))
    case Observe(v, name, running, observed) => es == [] && m == n.(vms := P.Observe(n.vms, v, name, running, observed))
    case ExpireStaged(cutoff) => es == [] && m == n.(vms := P.ExpireAll(n.vms, cutoff))
    case Queue => es == [] && m == n.(queued := true)
    case Dequeue => es == [] && m == n.(queued := false)
    case RecordFetch(now) => es == [] && m == n.(gate := G.Gate(now, G.KeyOf(G.Held(n.vms))))
    case SeedCache(ms) => es == [] && m == n.(cache := Rebuild(ms))
    case WarmBackup(scan) => es == [] && m == n.(backup := B.Warm(n.backup, scan))
    case FlushBackup(fails) => es == [] && m == n.(backup := B.Flush(n.backup, fails))
    case CloseBackup(fails) => es == [] && m == n.(backup := B.Step(n.backup, B.Close(fails)))
    case FlushRoutes(f) =>
      && PassEvents(n.core.announced, {}, f, es)
      && m == n.(core := n.core.(announced := Pass(n.core.announced, {}, f)), kernel := Replay(n.kernel, es))
    case Apply(o, all, t) => Applies(env, n, o, all, t, es, m)
  }

  /** A process that has just started, on whatever kernel it finds. */
  ghost predicate Boot(n: Node) {
    && n.vms == map[]
    && n.backup == B.Fresh(n.backup.files)
    && n.cache == Cache(false, map[], map[], map[])
    && n.core == Core(map[], "", false, Announced({}, false))
    && n.gate == G.NO_FETCH
    && !n.queued
  }

  /** acts and their kernel operations, one list a step, lead through the states ns. */
  ghost predicate Steps(env: Env, ns: seq<Node>, acts: seq<Act>, ess: seq<seq<Event>>) {
    && |ns| == |acts| + 1 && |ess| == |acts|
    && forall i, j {:trigger Step(env, ns[i], acts[i], ess[i], ns[j])} | 0 <= i < j < |ns| && j == i + 1 ::
         Step(env, ns[i], acts[i], ess[i], ns[j])
  }

  /** A stretch of a run. */
  datatype Path = Path(ns: seq<Node>, acts: seq<Act>, ess: seq<seq<Event>>)

  ghost predicate Leads(env: Env, n: Node, p: Path, m: Node) {
    Steps(env, p.ns, p.acts, p.ess) && p.ns[0] == n && p.ns[|p.ns| - 1] == m
  }

  function Stay(n: Node): Path {
    Path([n], [], [])
  }

  function Then(p: Path, a: Act, es: seq<Event>, m: Node): Path {
    Path(p.ns + [m], p.acts + [a], p.ess + [es])
  }

  /** All kernel operations of a path, in order. */
  function Log(ess: seq<seq<Event>>): seq<Event> {
    if ess == [] then [] else Log(ess[..|ess| - 1]) + ess[|ess| - 1]
  }

  lemma LeadsThen(env: Env, n: Node, p: Path, l: Node, a: Act, es: seq<Event>, m: Node)
    requires Leads(env, n, p, l) && Step(env, l, a, es, m)
    ensures Leads(env, n, Then(p, a, es, m), m)
    ensures Log(p.ess + [es]) == Log(p.ess) + es
  {
    var q := Then(p, a, es, m);
    forall i, j | 0 <= i < j < |q.ns| && j == i + 1 ensures Step(env, q.ns[i], q.acts[i], q.ess[i], q.ns[j]) {
      if j < |p.ns| {
        assert Step(env, p.ns[i], p.acts[i], p.ess[i], p.ns[j]);
      }
    }
    assert q.ess[..|p.ess|] == p.ess;
  }

  lemma LeadsOnce(env: Env, n: Node, a: Act, es: seq<Event>, m: Node) returns (p: Path)
    requires Step(env, n, a, es, m)
    ensures Leads(env, n, p, m) && p.acts == [a] && Log(p.ess) == es
  {
    LeadsThen(env, n, Stay(n), n, a, es, m);
    p := Then(Stay(n), a, es, m);
  }

  lemma LeadsTwice(env: Env, n: Node, a: Act, es: seq<Event>, l: Node, b: Act, fs: seq<Event>, m: Node)
    returns (p: Path)
    requires Step(env, n, a, es, l) && Step(env, l, b, fs, m)
    ensures Leads(env, n, p, m) && p.acts == [a, b] && Log(p.ess) == es + fs
  {
    var q := LeadsOnce(env, n, a, es, l);
    LeadsThen(env, n, q, l, b, fs, m);
    p := Then(q, b, fs, m);
  }

  lemma {:induction false} LogAppend(a: seq<seq<Event>>, b: seq<seq<Event>>)
    ensures Log(a + b) == Log(a) + Log(b)
  {
    if b == [] {
      assert a + b == a;
    } else {
      LogAppend(a, b[..|b| - 1]);
      assert (a + b)[..|a + b| - 1] == a + b[..|b| - 1];
    }
  }

  lemma LeadsOn(env: Env, n: Node, p: Path, l: Node, a: Act, es: seq<Event>, m: Node) returns (r: Path)
    requires Leads(env, n, p, l) && Step(env, l, a, es, m)
    ensures Leads(env, n, r, m) && r.acts == p.acts + [a] && r.ess == p.ess + [es]
  {
    LeadsThen(env, n, p, l, a, es, m);
    r := Then(p, a, es, m);
  }

  lemma StepsFront(env: Env, ns: seq<Node>, acts: seq<Act>, ess: seq<seq<Event>>, k: nat)
    requires Steps(env, ns, acts, ess) && k < |acts|
    ensures Steps(env, ns[..k + 1], acts[..k], ess[..k]) && Step(env, ns[k], acts[k], ess[k], ns[k + 1])
  {
    var ms, bs, fss := ns[..k + 1], acts[..k], ess[..k];
    forall i, j | 0 <= i < j < |ms| && j == i + 1 ensures Step(env, ms[i], bs[i], fss[i], ms[j]) {
      assert ms[i] == ns[i] && bs[i] == acts[i] && fss[i] == ess[i] && ms[j] == ns[j];
    }
  }

  /** All of a path but its last step. */
  function Front(p: Path): Path
    requires p.acts != [] && |p.ns| == |p.acts| + 1 && |p.ess| == |p.acts|
  {
    var k := |p.acts| - 1;
    Path(p.ns[..k + 1], p.acts[..k], p.ess[..k])
  }

  lemma LeadsFront(env: Env, n: Node, p: Path, m: Node)
    requires Leads(env, n, p, m) && p.acts != []
    ensures var k := |p.acts| - 1;
            && Leads(env, n, Front(p), p.ns[k]) && Step(env, p.ns[k], p.acts[k], p.ess[k], m)
            && p.acts == Front(p).acts + [p.acts[k]] && p.ess == Front(p).ess + [p.ess[k]]
  {
    StepsFront(env, p.ns, p.acts, p.ess, |p.acts| - 1);
    FrontAndLast(p.acts);
    FrontAndLast(p.ess);
  }

  lemma LeadsInOne(env: Env, n: Node, p: Path, m: Node)
    requires Leads(env, n, p, m) && |p.acts| == 1
    ensures Step(env, n, p.acts[0], p.ess[0], m)
  {
  }

  lemma LeadsInTwo(env: Env, n: Node, p: Path, m: Node)
    requires Leads(env, n, p, m) && |p.acts| == 2
    ensures Step(env, n, p.acts[0], p.ess[0], p.ns[1]) && Step(env, p.ns[1], p.acts[1], p.ess[1], m)
  {
  }

  lemma Regroup<T>(a: seq<T>, b: seq<T>, x: T)
    ensures (a + b) + [x] == a + (b + [x])
  {
  }

  lemma FrontAndLast<T>(s: seq<T>)
    requires s != []
    ensures s == s[..|s| - 1] + [s[|s| - 1]]
  {
  }

  /** One stretch after another. */
  lemma {:induction false} LeadsJoined(env: Env, n: Node, p: Path, l: Node, q: Path, m: Node) returns (r: Path)
    requires Leads(env, n, p, l) && Leads(env, l, q, m)
    ensures Leads(env, n, r, m) && r.acts == p.acts + q.acts && r.ess == p.ess + q.ess
    decreases |q.acts|
  {
    if q.acts == [] {
      r := p;
    } else {
      var k := |q.acts| - 1;
      LeadsFront(env, l, q, m);
      var s := LeadsJoined(env, n, p, l, Front(q), q.ns[k]);
      r := LeadsOn(env, n, s, q.ns[k], q.acts[k], q.ess[k], m);
      Regroup(p.acts, Front(q).acts, q.acts[k]);
      Regroup(p.ess, Front(q).ess, q.ess[k]);
    }
  }

  lemma LeadsBoth(env: Env, n: Node, p: Path, l: Node, q: Path, m: Node) returns (r: Path)
    requires Leads(env, n, p, l) && Leads(env, l, q, m)
    ensures Leads(env, n, r, m) && r.acts == p.acts + q.acts && Log(r.ess) == Log(p.ess) + Log(q.ess)
  {
    r := LeadsJoined(env, n, p, l, q, m);
    LogAppend(p.ess, q.ess);
  }

  // ---- What every step keeps ----

  ghost predicate Inv(env: Env, n: Node) {
    && KeyInv(env.text, n.core, n.kernel)
    && AnnouncedInv(n.core, n.kernel)
    && Filed(n.cache)
    && B.CacheTrue(n.backup)
  }

  lemma BootInv(env: Env, n: Node)
    requires Boot(n)
    ensures Inv(env, n)
  {
  }

  lemma PreparedFiled(env: Env, n: Node, o: Origin, all: seq<Mapping>)
    requires Filed(n.cache)
    ensures Filed(PreparedCache(env, n, o, all))
  {
    if o.Fetched? { RebuildFiled(all); }
    if o.Hook? { UpdateFiled(env.parse, Readied(n.cache), o.d); }
  }

  lemma AppliedBackupTrue(env: Env, n: Node, o: Origin, all: seq<Mapping>, t: Trouble)
    requires B.CacheTrue(n.backup)
    ensures B.CacheTrue(BackupAfter(JobOf(env, n, o, all, t)))
  {
    var b := PreparedBackup(env, n, o, all);
    assert B.CacheTrue(b) by {
      if o.Hook? {
        SyncKeepsCacheTrue(env.parse, PreparedCache(env, n, o, all), PreparedVms(n, o), n.backup, o.d, o.noRead);
      }
    }
    var j := JobOf(env, n, o, all, t);
    B.OthersKeepCacheTrue(b, Reads(j), j.noRead, map[], B.ScanFailed);
    B.OthersKeepCacheTrue(B.LoadAll(b, Reads(j), j.noRead), {}, {}, Writes(j), B.ScanFailed);
  }

  lemma SyncKeepsCacheTrue(parse: Parser, c: Cache, vms: P.VMs, b: B.Store, d: Delta, noRead: set<int>)
    requires B.CacheTrue(b)
    ensures B.CacheTrue(SyncBackup(parse, c, vms, b, d, noRead))
  {
    var v := Target(c, d, d.name);
    B.OthersKeepCacheTrue(b, {v}, noRead, map[v := None], B.ScanFailed);
    if SyncsIP(parse, vms, d, v) {
      B.OthersKeepCacheTrue(B.LoadAll(b, {v}, noRead), {}, {},
                            DeltaWrites(parse, d, v, B.LoadResultOf(b, v, noRead)), B.ScanFailed);
    }
  }

  lemma FlushRoutesInv(env: Env, n: Node, f: Faults, es: seq<Event>, m: Node)
    requires Inv(env, n) && Step(env, n, FlushRoutes(f), es, m)
    ensures Inv(env, m)
  {
    PassOnly(n.core.announced, {}, f, es);
    PassLeavesRules(n.kernel, es);
    PassConverges(n.kernel, n.core.announced, {}, f, es);
  }

  lemma StepInv(env: Env, n: Node, a: Act, es: seq<Event>, m: Node)
    requires GoodText(env.text) && Inv(env, n) && Step(env, n, a, es, m)
    ensures Inv(env, m)
  {
    match a
    case Apply(o, all, t) =>
      var j := JobOf(env, n, o, all, t);
      var managed := Managed(m.cache, m.backup);
      PreparedFiled(env, n, o, all);
      AppliedBackupTrue(env, n, o, all, t);
      SkipRefines(env.text, n.core, n.kernel, Applied(j), managed, t.kernel, es, m.core, m.kernel);
      AnnouncedKept(env.text, n.core, n.kernel, Applied(j), managed, t.kernel, es, m.core, m.kernel);
    case FlushRoutes(f) => FlushRoutesInv(env, n, f, es, m);
    case SeedCache(ms) => RebuildFiled(ms);
    case WarmBackup(scan) => B.OthersKeepCacheTrue(n.backup, {}, {}, map[], scan);
    case FlushBackup(fails) => B.FlushKeepsCacheTrue(n.backup, fails);
    case CloseBackup(fails) => B.FlushKeepsCacheTrue(n.backup.(closed := true), fails);
    case _ =>
  }

  lemma InvNext(env: Env, ns: seq<Node>, acts: seq<Act>, ess: seq<seq<Event>>, i: nat)
    requires GoodText(env.text) && Steps(env, ns, acts, ess)
    requires i < |acts| && Inv(env, ns[i])
    ensures Inv(env, ns[i + 1])
  {
    StepInv(env, ns[i], acts[i], ess[i], ns[i + 1]);
  }

  lemma {:induction false} RunInv(env: Env, ns: seq<Node>, acts: seq<Act>, ess: seq<seq<Event>>, i: nat)
    requires GoodText(env.text) && Steps(env, ns, acts, ess) && Inv(env, ns[0])
    requires i < |ns|
    ensures Inv(env, ns[i])
  {
    if i > 0 {
      RunInv(env, ns, acts, ess, i - 1);
      InvNext(env, ns, acts, ess, i - 1);
    }
  }
}
