/**
 The addresses of one VM on one node: as long as no other VM is ever given them, a node
 announces them only while it has the VM active.
 */
module Ownership {
  import opened Options
  import opened Text
  import opened Net
  import B = Backup
  import P = Placement
  import opened MappingCache
  import opened Kernels
  import opened Apply
  import opened ApplySteps
  import opened Nodes
  import opened RunSafety
  import opened Retention

  predicate NoneOf(ms: seq<Mapping>, xs: set<Addr>) {
    forall m | m in ms :: m.external !in xs
  }

  /** Of everything listed, only v's own mappings use the addresses xs. */
  predicate AllOwned(all: seq<Mapping>, v: int, xs: set<Addr>) {
    forall m | m in all :: m.external in xs ==> m.vmid == v
  }

  /** Nothing cached gives an address of xs to another VM than v. */
  ghost predicate CacheOwned(c: Cache, v: int, xs: set<Addr>) {
    && (forall u | u in c.byVMID && u != v :: NoneOf(c.byVMID[u], xs))
    && (forall name | name in c.pending :: NoneOf(c.pending[name], xs))
  }

  /** Nothing this node remembers does. */
  ghost predicate Owned(n: Node, v: int, xs: set<Addr>) {
    && CacheOwned(n.cache, v, xs)
    && (forall u | u != v :: NoneOf(Usable(n.backup, u), xs))
    && (forall u | u in n.core.lastApplied && u != v :: NoneOf(n.core.lastApplied[u], xs))
  }

  predicate Avoids(parse: Parser, outside: seq<string>, xs: set<Addr>) {
    forall i | 0 <= i < |outside| :: parse(outside[i]).Some? ==> parse(outside[i]).value !in xs
  }

  /** A delta that maps no address of xs to another VM than v. */
  predicate KeepsAway(parse: Parser, c: Cache, d: Delta, v: int, xs: set<Addr>) {
    IsIP(d) && !IsVM(d) && (Target(Learn(c, d), d, Trim(d.name)) != v || v <= 0) ==> Avoids(parse, d.outside, xs)
  }

  /** A step that brings no mapping that gives v's addresses away; the directory is scanned but once. */
  ghost predicate Brings(env: Env, n: Node, a: Act, v: int, xs: set<Addr>) {
    match a
    case WarmBackup(_) => !n.backup.scanned
    case SeedCache(ms) => AllOwned(ms, v, xs)
    case Apply(o, all, _) =>
      && (o.Fetched? ==> AllOwned(all, v, xs))
      && (o.Hook? ==> KeepsAway(env.parse, Readied(n.cache), o.d, v, xs))
    case _ => true
  }

  // ---- The cache ----

  lemma {:induction false} EntriesAway(parse: Parser, outside: seq<string>, internal: Addr, u: int, name: string,
                                       xs: set<Addr>)
    requires Avoids(parse, outside, xs)
    ensures NoneOf(Entries(parse, outside, internal, u, name), xs)
  {
    if outside != [] {
      assert forall i | 0 <= i < |outside| - 1 :: outside[1..][i] == outside[i + 1];
      EntriesAway(parse, outside[1..], internal, u, name, xs);
    }
  }

  lemma LearnOwned(c: Cache, d: Delta, v: int, xs: set<Addr>)
    requires CacheOwned(c, v, xs)
    ensures CacheOwned(Learn(c, d), v, xs)
  {
    if d.hasVMID && d.name in c.pending {
      assert NoneOf(c.pending[d.name], xs);
      forall m | m in Retarget(c.pending[d.name], d.vmid) ensures m.external !in xs {
        var i :| 0 <= i < |c.pending[d.name]| && m == Retarget(c.pending[d.name], d.vmid)[i];
        assert c.pending[d.name][i] in c.pending[d.name];
      }
    }
  }

  lemma UpdateOwned(parse: Parser, c: Cache, d: Delta, v: int, xs: set<Addr>)
    requires CacheOwned(c, v, xs) && KeepsAway(parse, c, d, v, xs)
    ensures CacheOwned(Update(parse, c, d), v, xs)
  {
    var l, name := Learn(c, d), Trim(d.name);
    LearnOwned(c, d, v, xs);
    var u := Target(l, d, name);
    if IsIP(d) && !IsVM(d) && ChangeOf(parse, d, u, name).Put? {
      var internal := parse(d.internal).value;
      if u != v || v <= 0 {
        EntriesAway(parse, d.outside, internal, u, name, xs);
      }
    }
  }

  lemma ListingOwned(c: Cache, all: seq<Mapping>, v: int, xs: set<Addr>)
    requires Filed(c) && IsListing(c, all) && CacheOwned(c, v, xs)
    ensures AllOwned(all, v, xs)
  {
    forall m | m in all && m.external in xs ensures m.vmid == v {
      ListingMembers(c, all, m);
    }
  }

  lemma RebuildOwned(ms: seq<Mapping>, v: int, xs: set<Addr>)
    requires AllOwned(ms, v, xs)
    ensures CacheOwned(Rebuild(ms), v, xs)
  {
    RebuildFiled(ms);
    forall u | u in Rebuild(ms).byVMID && u != v ensures NoneOf(Rebuild(ms).byVMID[u], xs) {
      assert At(Rebuild(ms).byVMID, u) == OfVM(ms, u);
      OfVMAll(ms, u);
    }
  }

  lemma PreparedOwned(env: Env, n: Node, a: Act, v: int, xs: set<Addr>)
    requires CacheOwned(n.cache, v, xs) && a.Apply? && Brings(env, n, a, v, xs)
    ensures CacheOwned(PreparedCache(env, n, a.origin, a.all), v, xs)
  {
    if a.origin.Fetched? { RebuildOwned(a.all, v, xs); }
    if a.origin.Hook? { UpdateOwned(env.parse, Readied(n.cache), a.origin.d, v, xs); }
  }

  /** Whatever an apply is handed, only v's mappings use v's addresses. */
  lemma AppliesOwned(env: Env, n: Node, a: Act, v: int, xs: set<Addr>)
    requires Filed(n.cache) && CacheOwned(n.cache, v, xs) && a.Apply? && Brings(env, n, a, v, xs)
    requires Listed(env, n, a.origin, a.all)
    ensures AllOwned(a.all, v, xs)
  {
    PreparedOwned(env, n, a, v, xs);
    PreparedFiled(env, n, a.origin, a.all);
    if a.origin.FastPath? || a.origin.Hook? {
      ListingOwned(PreparedCache(env, n, a.origin, a.all), a.all, v, xs);
    }
  }

  // ---- One apply ----

  /** What a job draws on; the apply of a delta rewrites the backups of active VMs anyway. */
  ghost predicate JobOwned(j: Job, v: int, xs: set<Addr>) {
    && AllOwned(j.all, v, xs)
    && (forall u | u != v ::
          NoneOf(Usable(j.backup, u), xs) || (j.source == WebhookDelta && u in j.active && !j.backup.closed))
    && (forall u | u in j.last && u != v :: NoneOf(j.last[u], xs))
  }

  lemma OthersAvoid(j: Job, u: int, v: int, xs: set<Addr>)
    requires u != v && JobOwned(j, v, xs)
    ensures NoneOf(OfVM(j.all, u), xs) && NoneOf(DecisionFor(j, u).mappings, xs)
    ensures NoneOf(Usable(BackupAfter(j), u), xs)
  {
    OfVMAll(j.all, u);
    LoadGivesUsable(j.backup, u, j.noRead);
    AfterApply(j, u);
  }

  lemma AppliedOwned(j: Job, v: int, xs: set<Addr>)
    requires JobOwned(j, v, xs)
    ensures forall u | u in Applied(j) && u != v :: NoneOf(Applied(j)[u], xs)
    ensures v !in Applied(j) ==> Externals(Applied(j)) !! xs
    ensures forall ip | ip in xs :: ip in Externals(Applied(j)) <==> v in Applied(j) && HasIP(Applied(j)[v], ip)
    ensures forall u | u != v :: NoneOf(Usable(BackupAfter(j), u), xs)
  {
    forall u | u != v
      ensures NoneOf(DecisionFor(j, u).mappings, xs) && NoneOf(Usable(BackupAfter(j), u), xs)
    {
      OthersAvoid(j, u, v, xs);
    }
  }

  predicate HasIP(ms: seq<Mapping>, ip: Addr) {
    exists x :: x in ms && x.external == ip
  }

  lemma SyncAway(parse: Parser, c: Cache, vms: P.VMs, b: B.Store, d: Delta, noRead: set<int>, u: int, xs: set<Addr>)
    requires NoneOf(Usable(b, u), xs)
    ensures var s := SyncBackup(parse, c, vms, b, d, noRead);
            NoneOf(Usable(s, u), xs) || (IsActive(vms, u) && !s.closed)
  {
    var t := Target(c, d, d.name);
    AfterEnqueue(b, map[t := None], u);
    if SyncsIP(parse, vms, d, t) {
      var l, w := B.LoadAll(b, {t}, noRead), DeltaWrites(parse, d, t, B.LoadResultOf(b, t, noRead));
      B.ViewLoad(b, {t}, noRead, u);
      AfterEnqueue(l, w, u);
    }
  }

  lemma JobIsOwned(env: Env, n: Node, a: Act, v: int, xs: set<Addr>)
    requires Filed(n.cache) && Owned(n, v, xs) && a.Apply? && Brings(env, n, a, v, xs)
    requires Listed(env, n, a.origin, a.all)
    ensures JobOwned(JobOf(env, n, a.origin, a.all, a.trouble), v, xs)
  {
    var o := a.origin;
    AppliesOwned(env, n, a, v, xs);
    if o.Hook? {
      forall u | u != v
        ensures NoneOf(Usable(PreparedBackup(env, n, o, a.all), u), xs) ||
                (IsActive(PreparedVms(n, o), u) && !PreparedBackup(env, n, o, a.all).closed)
      {
        SyncAway(env.parse, PreparedCache(env, n, o, a.all), PreparedVms(n, o), n.backup, o.d, o.noRead, u, xs);
      }
    }
  }

  // ---- Steps ----

  lemma ApplyOwned(env: Env, n: Node, a: Act, es: seq<Event>, m: Node, v: int, xs: set<Addr>)
    requires Filed(n.cache) && Owned(n, v, xs) && a.Apply? && Brings(env, n, a, v, xs)
    requires Step(env, n, a, es, m)
    ensures Owned(m, v, xs)
  {
    var j := JobOf(env, n, a.origin, a.all, a.trouble);
    JobIsOwned(env, n, a, v, xs);
    AppliedOwned(j, v, xs);
    PreparedOwned(env, n, a, v, xs);
  }

  /** Ownership outlives every step that does not break it from outside, deltas included. */
  lemma OwnedStep(env: Env, n: Node, a: Act, es: seq<Event>, m: Node, v: int, xs: set<Addr>)
    requires Inv(env, n) && Owned(n, v, xs) && Brings(env, n, a, v, xs)
    requires Step(env, n, a, es, m)
    ensures Owned(m, v, xs)
  {
    if a.Apply? {
      ApplyOwned(env, n, a, es, m, v, xs);
    } else if a.SeedCache? {
      RebuildOwned(a.ms, v, xs);
    } else {
      BackupOwned(env, n, a, es, m, v, xs);
    }
  }

  lemma FirstScan(b: B.Store, scan: B.Scan, u: int, xs: set<Addr>)
    requires B.CacheTrue(b) && !b.scanned && NoneOf(Usable(b, u), xs)
    ensures NoneOf(Usable(B.Warm(b, scan), u), xs)
  {
  }

  lemma BackupOwned(env: Env, n: Node, a: Act, es: seq<Event>, m: Node, v: int, xs: set<Addr>)
    requires Inv(env, n) && Owned(n, v, xs) && !a.Apply? && !a.SeedCache? && Brings(env, n, a, v, xs)
    requires Step(env, n, a, es, m)
    ensures Owned(m, v, xs)
  {
    forall u | u != v ensures NoneOf(Usable(m.backup, u), xs) {
      if a.WarmBackup? { FirstScan(n.backup, a.scan, u, xs); }
      if a.FlushBackup? { AfterFlush(n.backup, a.fails, u); }
      if a.CloseBackup? { AfterFlush(n.backup, a.fails, u); }
    }
  }

  /** None of the addresses is announced, and none is on the loopback for another reason. */
  predicate Clear(n: Node, xs: set<Addr>) {
    n.kernel.lo !! xs && n.core.announced.ips !! xs
  }

  predicate NoAdverts(es: seq<Event>, xs: set<Addr>) {
    forall k | 0 <= k < |es| :: es[k].Advertise? ==> es[k].ip !in xs
  }

  /** A step that does not leave v active announces none of its addresses. */
  lemma ClearStep(env: Env, n: Node, a: Act, es: seq<Event>, m: Node, v: int, xs: set<Addr>)
    requires Inv(env, n) && Owned(n, v, xs) && Brings(env, n, a, v, xs)
    requires Step(env, n, a, es, m) && !IsActive(m.vms, v)
    requires Clear(n, xs)
    ensures Clear(m, xs) && NoAdverts(es, xs)
  {
    if a.Apply? {
      ClearApply(env, n, a, es, m, v, xs);
    } else if a.FlushRoutes? {
      ClearFlush(n.kernel, n.core.announced, a.f, es, xs);
    }
  }

  lemma ClearFlush(k: Kernel, an: Announced, f: Faults, es: seq<Event>, xs: set<Addr>)
    requires PassEvents(an, {}, f, es) && an.ips !! xs && k.lo !! xs
    ensures NoAdverts(es, xs) && Replay(k, es).lo !! xs && Pass(an, {}, f).ips !! xs
  {
    WithdrawsAll(k, an, f, es);
    forall i | 0 <= i < |es| ensures es[i].Advertise? ==> es[i].ip !in xs {
      PassEventKinds(an, {}, f, es, i);
    }
  }

  lemma ClearApply(env: Env, n: Node, a: Act, es: seq<Event>, m: Node, v: int, xs: set<Addr>)
    requires Inv(env, n) && Owned(n, v, xs) && a.Apply? && Brings(env, n, a, v, xs)
    requires Step(env, n, a, es, m) && !IsActive(m.vms, v)
    requires Clear(n, xs)
    ensures Clear(m, xs) && NoAdverts(es, xs)
  {
    JobIsOwned(env, n, a, v, xs);
    AppliedOwned(JobOf(env, n, a.origin, a.all, a.trouble), v, xs);
    AvoidsDesired(env.text, n.core, n.kernel, Programmed(env, n, a), Managed(m.cache, m.backup), a.trouble.kernel,
                  es, m.core, m.kernel, xs);
  }

  /** An apply that does not want an address does not put it anywhere. */
  lemma AvoidsDesired(text: Addr -> string, c: Core, k: Kernel, applied: map<int, seq<Mapping>>, managed: set<Addr>,
                      f: Faults, es: seq<Event>, c': Core, k': Kernel, xs: set<Addr>)
    requires ApplyStep(text, c, k, applied, managed, f, es, c', k')
    requires Externals(applied) !! xs && k.lo !! xs && c.announced.ips !! xs
    ensures k'.lo !! xs && c'.announced.ips !! xs && NoAdverts(es, xs)
  {
    KernelAfter(text, c, k, applied, managed, f, es);
    forall i | 0 <= i < |es| ensures es[i].Advertise? ==> es[i].ip !in xs {
      ApplyEventKinds(text, c, k, applied, managed, f, es, i);
    }
  }

  // ---- Letting go and taking over ----

  /** Every address of xs on the loopback was put there by this process. */
  predicate Accounted(n: Node, xs: set<Addr>) {
    n.kernel.lo * xs <= n.core.announced.ips
  }

  lemma AccountedStep(env: Env, n: Node, a: Act, es: seq<Event>, m: Node, xs: set<Addr>)
    requires Step(env, n, a, es, m) && Accounted(n, xs)
    ensures Accounted(m, xs)
  {
    if a.Apply? {
      KernelAfter(env.text, n.core, n.kernel, Programmed(env, n, a), Managed(m.cache, m.backup), a.trouble.kernel, es);
    } else if a.FlushRoutes? {
      WithdrawsAll(n.kernel, n.core.announced, a.f, es);
    }
  }

  /** An apply that reports no error at all. */
  ghost predicate Flawless(env: Env, n: Node, a: Act, m: Node) {
    a.Apply? && !Fails(env, n, a) && PassOk(PassStart(n, a, m), Wanted(env, n, a), a.trouble.kernel)
  }

  /** After an apply without errors the addresses of v are up exactly as far as v is programmed with them. */
  lemma FlawlessScopes(env: Env, n: Node, a: Act, es: seq<Event>, m: Node, v: int, xs: set<Addr>)
    requires GoodText(env.text) && Inv(env, n) && Owned(n, v, xs) && Brings(env, n, a, v, xs) && Accounted(n, xs)
    requires Step(env, n, a, es, m) && Flawless(env, n, a, m)
    ensures forall ip | ip in xs ::
              ip in m.kernel.lo <==> v in Programmed(env, n, a) && HasIP(Programmed(env, n, a)[v], ip)
    ensures v !in Programmed(env, n, a) ==> Clear(m, xs)
  {
    JobIsOwned(env, n, a, v, xs);
    AppliedOwned(JobOf(env, n, a.origin, a.all, a.trouble), v, xs);
    ScopesAt(env, n, a, es, m);
    AccountedStep(env, n, a, es, m, xs);
  }

  /** So if v is not active then, they are all down. */
  lemma FlawlessClears(env: Env, n: Node, a: Act, es: seq<Event>, m: Node, v: int, xs: set<Addr>)
    requires GoodText(env.text) && Inv(env, n) && Owned(n, v, xs) && Brings(env, n, a, v, xs) && Accounted(n, xs)
    requires Step(env, n, a, es, m) && Flawless(env, n, a, m) && !IsActive(m.vms, v)
    ensures Clear(m, xs)
  {
    FlawlessScopes(env, n, a, es, m, v, xs);
  }
}
