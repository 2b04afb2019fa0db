/**
 An address that is announced for an active VM stays announced: through nft failures,
 fetches that cannot be believed, deltas, flushes and scans, as long as the VM stays
 active and is not believed to have lost the address.
 */
module Serving {
  import opened Options
  import opened Net
  import B = Backup
  import P = Placement
  import opened MappingCache
  import opened Kernels
  import opened Apply
  import opened ApplySteps
  import opened Nodes
  import opened RunSafety
  import opened Retention
  import opened Ownership

  /** What keeps ip up for v: it is announced, it was programmed, and no backup of v says otherwise. */
  ghost predicate Serves(n: Node, v: int, ip: Addr) {
    && IsActive(n.vms, v) && ip in n.core.announced.ips
    && v in n.core.lastApplied && HasIP(n.core.lastApplied[v], ip)
    && Tracked(n.backup, v)
    && (Usable(n.backup, v) == [] || HasIP(Usable(n.backup, v), ip))
  }

  /** An apply that is handed the address for v, or nothing it could believe. */
  predicate Lists(a: Act, v: int, ip: Addr) {
    a.Apply? ==> HasIP(OfVM(a.all, v), ip) || (a.all == [] && !a.origin.Hook?)
  }

  /** A step that leaves v active and does not take the address from it. */
  predicate Sustains(a: Act, m: Node, v: int, ip: Addr) {
    IsActive(m.vms, v) && !a.FlushRoutes? && Lists(a, v, ip)
  }

  /** ip is on the loopback from the first to the last operation. */
  ghost predicate UpThroughout(k: Kernel, es: seq<Event>, ip: Addr) {
    forall i | 0 <= i <= |es| :: ip in Replay(k, es[..i]).lo
  }

  lemma SyncTracks(env: Env, n: Node, o: Origin, all: seq<Mapping>, v: int)
    requires Tracked(n.backup, v)
    ensures Tracked(PreparedBackup(env, n, o, all), v)
    ensures PreparedBackup(env, n, o, all).closed == n.backup.closed
    ensures !o.Hook? || n.backup.closed ==> Usable(PreparedBackup(env, n, o, all), v) == Usable(n.backup, v)
  {
    if o.Hook? {
      var parse, c, vms, b := env.parse, PreparedCache(env, n, o, all), PreparedVms(n, o), n.backup;
      var t := Target(c, o.d, o.d.name);
      SyncStaysOpen(parse, c, vms, b, o.d, o.noRead, v);
      AfterEnqueue(b, map[t := None], v);
      if SyncsIP(parse, vms, o.d, t) {
        AfterEnqueue(B.LoadAll(b, {t}, o.noRead), DeltaWrites(parse, o.d, t, B.LoadResultOf(b, t, o.noRead)), v);
      }
    }
  }

  /** Whether listed or not, v is programmed with the address, and its backup does not lose it. */
  lemma JobSustains(j: Job, v: int, ip: Addr)
    requires v in j.active && Tracked(j.backup, v) && v in j.last && HasIP(j.last[v], ip)
    requires HasIP(OfVM(j.all, v), ip) || (j.all == [] && j.source != WebhookDelta)
    requires j.source != WebhookDelta || j.backup.closed ==> Usable(j.backup, v) == [] || HasIP(Usable(j.backup, v), ip)
    ensures v in Applied(j) && HasIP(Applied(j)[v], ip)
    ensures Tracked(BackupAfter(j), v)
    ensures Usable(BackupAfter(j), v) == [] || HasIP(Usable(BackupAfter(j), v), ip)
  {
    LoadGivesUsable(j.backup, v, j.noRead);
    AfterApply(j, v);
    TrackedAfterApply(j, v);
    assert HasIP(OfVM(j.all, v), ip) ==> OfVM(j.all, v) != [];
    assert HasIP(j.last[v], ip) ==> j.last[v] != [];
  }

  lemma ApplySustains(env: Env, n: Node, a: Act, es: seq<Event>, m: Node, v: int, ip: Addr)
    requires Step(env, n, a, es, m) && a.Apply? && Serves(n, v, ip) && Sustains(a, m, v, ip)
    ensures v in Programmed(env, n, a) && HasIP(Programmed(env, n, a)[v], ip)
    ensures Tracked(m.backup, v) && (Usable(m.backup, v) == [] || HasIP(Usable(m.backup, v), ip))
  {
    SyncTracks(env, n, a.origin, a.all, v);
    JobSustains(JobOf(env, n, a.origin, a.all, a.trouble), v, ip);
  }

  lemma WantedIfProgrammed(env: Env, n: Node, a: Act, v: int, ip: Addr)
    requires a.Apply? && v in Programmed(env, n, a) && HasIP(Programmed(env, n, a)[v], ip)
    ensures ip in Wanted(env, n, a)
  {
  }

  /** What is announced and still wanted stays announced, whatever fails. */
  lemma StaysAnnounced(env: Env, n: Node, a: Act, es: seq<Event>, m: Node, ip: Addr)
    requires Step(env, n, a, es, m) && a.Apply? && ip in n.core.announced.ips && ip in Wanted(env, n, a)
    ensures ip in m.core.announced.ips
    ensures m.core.lastApplied == n.core.lastApplied || m.core.lastApplied == Programmed(env, n, a)
  {
  }

  lemma ServedApply(env: Env, n: Node, a: Act, es: seq<Event>, m: Node, v: int, ip: Addr)
    requires Inv(env, n) && Step(env, n, a, es, m) && a.Apply? && Serves(n, v, ip) && Sustains(a, m, v, ip)
    ensures Serves(m, v, ip) && UpThroughout(n.kernel, es, ip)
  {
    ApplySustains(env, n, a, es, m, v, ip);
    WantedIfProgrammed(env, n, a, v, ip);
    StaysAnnounced(env, n, a, es, m, ip);
    forall i | 0 <= i <= |es| ensures ip in Replay(n.kernel, es[..i]).lo {
      StillWantedStays(env, n, a, es, m, i, ip);
    }
  }

  lemma ServedBackup(env: Env, n: Node, a: Act, es: seq<Event>, m: Node, v: int)
    requires Inv(env, n) && Step(env, n, a, es, m) && !a.Apply? && Tracked(n.backup, v)
    ensures Tracked(m.backup, v) && Usable(m.backup, v) == Usable(n.backup, v)
  {
    if a.WarmBackup? { AfterWarm(n.backup, a.scan, v); }
    if a.FlushBackup? { AfterFlush(n.backup, a.fails, v); }
    if a.CloseBackup? { AfterFlush(n.backup, a.fails, v); }
  }

  lemma OthersAreQuiet(env: Env, n: Node, a: Act, es: seq<Event>, m: Node)
    requires Step(env, n, a, es, m) && !a.Apply? && !a.FlushRoutes?
    ensures es == [] && m.core == n.core && m.kernel == n.kernel
  {
  }

  /** Service outlives every step that sustains it, at every moment of the step. */
  lemma ServedStep(env: Env, n: Node, a: Act, es: seq<Event>, m: Node, v: int, ip: Addr)
    requires Inv(env, n) && Step(env, n, a, es, m) && Serves(n, v, ip) && Sustains(a, m, v, ip)
    ensures Serves(m, v, ip) && UpThroughout(n.kernel, es, ip)
  {
    if a.Apply? {
      ServedApply(env, n, a, es, m, v, ip);
    } else {
      ServedBackup(env, n, a, es, m, v);
      OthersAreQuiet(env, n, a, es, m);
    }
  }

  /** An apply without errors that is handed the address for an active VM begins the service. */
  lemma BeginsToServe(env: Env, n: Node, a: Act, es: seq<Event>, m: Node, v: int, ip: Addr)
    requires GoodText(env.text) && Inv(env, n) && Step(env, n, a, es, m) && Flawless(env, n, a, m)
    requires IsActive(m.vms, v) && HasIP(OfVM(a.all, v), ip) && !n.backup.closed
    ensures Serves(m, v, ip) && ip in m.kernel.lo
  {
    var j := JobOf(env, n, a.origin, a.all, a.trouble);
    assert OfVM(a.all, v) != [];
    assert j.backup.closed == n.backup.closed by {
      if a.origin.Hook? {
        SyncStaysOpen(env.parse, PreparedCache(env, n, a.origin, a.all), PreparedVms(n, a.origin), n.backup, a.origin.d,
                      a.origin.noRead, v);
      }
    }
    AfterApply(j, v);
    TrackedAfterApply(j, v);
    ScopesAt(env, n, a, es, m);
    InstallsAt(env, n, a, es, m);
    WantedIfProgrammed(env, n, a, v, ip);
  }

  // ---- Stretches of a run ----

  predicate PathSustains(p: Path, v: int, ip: Addr)
    requires |p.ns| == |p.acts| + 1
  {
    forall i | 0 <= i < |p.acts| :: Sustains(p.acts[i], p.ns[i + 1], v, ip)
  }

  lemma UpThroughBoth(k: Kernel, es: seq<Event>, fs: seq<Event>, ip: Addr)
    requires UpThroughout(k, es, ip) && UpThroughout(Replay(k, es), fs, ip)
    ensures UpThroughout(k, es + fs, ip)
  {
    forall i | 0 <= i <= |es + fs| ensures ip in Replay(k, (es + fs)[..i]).lo {
      if i <= |es| {
        assert (es + fs)[..i] == es[..i];
      } else {
        assert (es + fs)[..i] == es + fs[..i - |es|];
        ReplayAppend(k, es, fs[..i - |es|]);
      }
    }
  }

  lemma LogOne(ess: seq<seq<Event>>, es: seq<Event>)
    ensures Log(ess + [es]) == Log(ess) + es
  {
    assert (ess + [es])[..|ess|] == ess;
  }

  lemma StartOfUp(n: Node, ip: Addr)
    requires ip in n.kernel.lo
    ensures UpThroughout(n.kernel, [], ip)
  {
  }

  lemma {:induction false} ServedPath(env: Env, n: Node, p: Path, m: Node, v: int, ip: Addr)
    requires GoodText(env.text) && Inv(env, n) && Serves(n, v, ip)
    requires Leads(env, n, p, m) && PathSustains(p, v, ip)
    ensures Inv(env, m) && Serves(m, v, ip)
    ensures UpThroughout(n.kernel, Log(p.ess), ip) && m.kernel == Replay(n.kernel, Log(p.ess))
    decreases |p.acts|
  {
    if p.acts == [] {
      StartOfUp(n, ip);
    } else {
      var k := |p.acts| - 1;
      LeadsFront(env, n, p, m);
      FrontSustains(p, v, ip);
      ServedPath(env, n, Front(p), p.ns[k], v, ip);
      StepInv(env, p.ns[k], p.acts[k], p.ess[k], m);
      ServedStep(env, p.ns[k], p.acts[k], p.ess[k], m, v, ip);
      StepReplays(env, p.ns[k], p.acts[k], p.ess[k], m);
      LogOne(Front(p).ess, p.ess[k]);
      UpThroughBoth(n.kernel, Log(Front(p).ess), p.ess[k], ip);
      ReplayAppend(n.kernel, Log(Front(p).ess), p.ess[k]);
    }
  }

  lemma FrontSustains(p: Path, v: int, ip: Addr)
    requires p.acts != [] && |p.ns| == |p.acts| + 1 && |p.ess| == |p.acts| && PathSustains(p, v, ip)
    ensures PathSustains(Front(p), v, ip)
    ensures var k := |p.acts| - 1; Sustains(p.acts[k], p.ns[k + 1], v, ip)
  {
    forall i | 0 <= i < |p.acts| - 1 ensures Sustains(Front(p).acts[i], Front(p).ns[i + 1], v, ip) {
      assert Sustains(p.acts[i], p.ns[i + 1], v, ip);
    }
  }
}
