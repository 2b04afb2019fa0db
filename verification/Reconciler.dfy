/**
 The reconciler as an object: the fields its methods update, the stores and the host it
 works on. Every operation is shown to be a path of the node's steps.
 */
module Reconcilers {
  import opened Options
  import opened Text
  import opened Net
  import B = Backup
  import opened BackupStores
  import P = Placement
  import opened MappingCache
  import opened Kernels
  import opened Apply
  import opened ApplySteps
  import opened Nodes
  import opened Events
  import opened Resolving
  import G = FetchGate

  class Reconciler {
    const env: Env
    const store: P.PlacementStore
    const backup: BackupStore
    const host: Host

    var lastRulesetKey: string
    var rulesetKeyValid: bool
    var lastAppliedByVMID: map<int, seq<Mapping>>

    var mappingCacheReady: bool
    var mappingByVMID: map<int, seq<Mapping>>
    var mappingPendingByName: map<string, seq<Mapping>>
    var vmIDByName: map<string, int>

    var lastFullFetch: int
    var lastActiveKey: string
    var reconcileQueued: bool

    var advertisedIPs: set<Addr>
    var kernelSynced: bool

    ghost function CacheAbs(): Cache
      reads this
    {
      Cache(mappingCacheReady, mappingByVMID, mappingPendingByName, vmIDByName)
    }

    ghost function CoreAbs(): Core
      reads this
    {
      Core(lastAppliedByVMID, lastRulesetKey, rulesetKeyValid, Announced(advertisedIPs, kernelSynced))
    }

    ghost function Abs(): Node
      reads this, store, backup, host
    {
      Node(store.vms, backup.Abs(), CacheAbs(), CoreAbs(), host.Abs(), G.Gate(lastFullFetch, lastActiveKey),
           reconcileQueued)
    }

    constructor (env: Env, store: P.PlacementStore, backup: BackupStore, host: Host)
      ensures this.env == env && this.store == store && this.backup == backup && this.host == host
      ensures store.vms == map[] && backup.Abs() == B.Fresh(backup.files) ==> Boot(Abs())
    {
      this.env, this.store, this.backup, this.host := env, store, backup, host;
      lastRulesetKey, rulesetKeyValid, lastAppliedByVMID := "", false, map[];
      mappingCacheReady, mappingByVMID, mappingPendingByName, vmIDByName := false, map[], map[], map[];
      lastFullFetch, lastActiveKey, reconcileQueued := P.ZERO_TIME, "", false;
      advertisedIPs, kernelSynced := {}, false;
    }

    // ---- Announcements ----

    method HasNewAdvertisements(desired: set<Addr>) returns (r: bool)
      ensures r <==> !(desired <= advertisedIPs)
    {
      var todo := desired;
      while todo != {}
        invariant todo <= desired
        invariant desired - todo <= advertisedIPs
        decreases todo
      {
        ghost var w := Pick(todo);
        assert w in todo;
        var ip :| ip in todo;
        if ip !in advertisedIPs {
          return true;
        }
        todo := todo - {ip};
      }
      return false;
    }

    method AdoptKernelState(managed: set<Addr>, f: Faults)
      requires !kernelSynced && managed != {}
      modifies this`advertisedIPs, this`kernelSynced
      ensures Announced(advertisedIPs, kernelSynced) ==
              Adopt(old(Announced(advertisedIPs, kernelSynced)), host.lo, managed, f)
    {
      if f.noList {
        return;
      }
      var todo := host.lo;
      while todo != {}
        invariant todo <= host.lo
        invariant advertisedIPs == old(advertisedIPs) + (host.lo - todo) * managed
        decreases todo
      {
        ghost var w := Pick(todo);
        assert w in todo;
        var ip :| ip in todo;
        todo := todo - {ip};
        if ip in managed && ip !in advertisedIPs {
          advertisedIPs := advertisedIPs + {ip};
        }
      }
      kernelSynced := true;
    }

    /** Adoption waits for a managed set and for a kernel that can be listed, and happens once. */
    method AdoptOnce(managed: set<Addr>, f: Faults)
      modifies this`advertisedIPs, this`kernelSynced
      ensures Announced(advertisedIPs, kernelSynced) ==
              Adopt(old(Announced(advertisedIPs, kernelSynced)), host.lo, managed, f)
    {
      if !kernelSynced && managed != {} {
        AdoptKernelState(managed, f);
      }
    }

    /** Advertises what is newly desired. */
    method AdvertiseMissing(desired: set<Addr>, f: Faults) returns (ok: bool, ghost ads: seq<Addr>)
      modifies this`advertisedIPs, host
      ensures Advertised(ads, {}, desired, old(advertisedIPs), f, advertisedIPs, ok)
      ensures host.log == old(host.log) + AdEvents(ads, f)
      ensures host.Abs() == Replay(old(host.Abs()), AdEvents(ads, f))
    {
      ok, ads := true, [];
      ghost var had := advertisedIPs;
      var todo := desired;
      while todo != {}
        invariant todo <= desired
        invariant Advertised(ads, todo, desired, had, f, advertisedIPs, ok)
        invariant host.log == old(host.log) + AdEvents(ads, f)
        invariant host.Abs() == Replay(old(host.Abs()), AdEvents(ads, f))
        decreases todo
      {
        ghost var w := Pick(todo);
        assert w in todo;
        var ip :| ip in todo;
        AdvertisedOneMore(ads, todo, desired, had, f, advertisedIPs, ok, ip);
        todo := todo - {ip};
        if ip !in advertisedIPs {
          var live := host.Advertise(ip, f);
          AdEventsOneMore(old(host.Abs()), ads, f, ip);
          ads := ads + [ip];
          if live {
            advertisedIPs := advertisedIPs + {ip};
          } else {
            ok := false;
          }
        }
      }
    }

    /** Withdraws what is no longer desired. */
    method WithdrawStale(desired: set<Addr>, f: Faults) returns (ok: bool, ghost wds: seq<Addr>)
      modifies this`advertisedIPs, host
      ensures Withdrawn(wds, {}, desired, old(advertisedIPs), f, advertisedIPs, ok)
      ensures host.log == old(host.log) + WdEvents(wds, f)
      ensures host.Abs() == Replay(old(host.Abs()), WdEvents(wds, f))
    {
      ok, wds := true, [];
      ghost var had := advertisedIPs;
      var todo := advertisedIPs;
      while todo != {}
        invariant todo <= had
        invariant Withdrawn(wds, todo, desired, had, f, advertisedIPs, ok)
        invariant host.log == old(host.log) + WdEvents(wds, f)
        invariant host.Abs() == Replay(old(host.Abs()), WdEvents(wds, f))
        decreases todo
      {
        ghost var w := Pick(todo);
        assert w in todo;
        var ip :| ip in todo;
        WithdrawnOneMore(wds, todo, desired, had, f, advertisedIPs, ok, ip);
        todo := todo - {ip};
        if ip !in desired {
          var gone := host.Withdraw(ip, f);
          WdEventsOneMore(old(host.Abs()), wds, f, ip);
          wds := wds + [ip];
          if gone {
            advertisedIPs := advertisedIPs - {ip};
          } else {
            ok := false;
          }
        }
      }
    }

    /** Converges the announced addresses to desired: adopt once, add, then remove. */
    method ReconcileBGP(desired: set<Addr>, managed: set<Addr>, f: Faults) returns (ok: bool, ghost es: seq<Event>)
      modifies this`advertisedIPs, this`kernelSynced, host
      ensures var a := Adopt(old(Announced(advertisedIPs, kernelSynced)), old(host.lo), managed, f);
              && PassEvents(a, desired, f, es)
              && Announced(advertisedIPs, kernelSynced) == Pass(a, desired, f)
              && (ok <==> PassOk(a, desired, f))
      ensures host.log == old(host.log) + es && host.Abs() == Replay(old(host.Abs()), es)
    {
      AdoptOnce(managed, f);
      ghost var a := Announced(advertisedIPs, kernelSynced);
      ghost var k := host.Abs();
      var added, ads := AdvertiseMissing(desired, f);
      ghost var mid := advertisedIPs;
      var removed, wds := WithdrawStale(desired, f);
      ok := added && removed;
      es := AdEvents(ads, f) + WdEvents(wds, f);
      ReplayAppend(k, AdEvents(ads, f), WdEvents(wds, f));
      PassInTwo(ads, wds, a, desired, f, added, mid, removed, advertisedIPs);
    }

    // ---- Applying mappings ----

    /** Every cached mapping: those filed under a VMID, then those waiting under a name. */
    method CachedMappings() returns (all: seq<Mapping>)
      ensures IsListing(CacheAbs(), all)
    {
      var filed, ks := Gather(mappingByVMID);
      var waiting, ns := Gather(mappingPendingByName);
      all := filed + waiting;
      assert ListedAs(CacheAbs(), ks, ns, all);
    }

    /** Every external address this service is responsible for. */
    method ManagedIPs() returns (managed: set<Addr>)
      modifies backup
      ensures managed == Managed(CacheAbs(), backup.Abs()) && backup.Abs() == old(backup.Abs())
    {
      var cached := CachedMappings();
      var backedUp := backup.All();
      managed := (set m | m in cached :: m.external) + (set m | m in backedUp :: m.external);
      ManagedIs(CacheAbs(), backup.Abs(), cached, backedUp);
    }

    /** The mappings one active VM gets, and what becomes of its backup. */
    method Resolve(v: int, fetched: seq<Mapping>, source: Source, believed: bool, noRead: set<int>)
      returns (ms: seq<Mapping>)
      modifies backup
      ensures ms == Decide(source, believed, fetched, B.LoadResultOf(old(backup.Abs()), v, noRead),
                           At(lastAppliedByVMID, v)).mappings
      ensures backup.Abs() ==
              ResolveOne(old(backup.Abs()), v, source, believed, fetched, At(lastAppliedByVMID, v), noRead)
    {
      ms := fetched;
      if |ms| > 0 {
        backup.Save(v, ms);
      } else if source == WebhookDelta {
        backup.Delete(v);
      } else {
        var loaded := backup.Load(v, noRead);
        if loaded.Found? {
          ms := loaded.mappings;
        }
        if believed && |ms| > 0 {
          backup.Delete(v);
        } else if !believed && |ms| == 0 {
          if v in lastAppliedByVMID && |lastAppliedByVMID[v]| > 0 {
            ms := lastAppliedByVMID[v];
          }
        }
      }
    }

    ghost function JobNow(all: seq<Mapping>, source: Source, noRead: set<int>): Job
      reads this, store, backup
    {
      Job(source, all, P.WithStatus(store.vms, P.Active), backup.Abs(), lastAppliedByVMID, noRead)
    }

    /** Resolves every active VM in turn: what to program, its rules and its addresses. */
    method DesiredState(all: seq<Mapping>, source: Source, noRead: set<int>, ghost j: Job)
      returns (applied: map<int, seq<Mapping>>, nft: seq<Mapping>, desired: set<Addr>)
      requires j == JobNow(all, source, noRead)
      modifies backup
      ensures backup.Abs() == BackupAfter(j) && applied == Applied(j)
      ensures multiset(nft) == multiset(Flatten(applied)) && desired == Externals(applied)
    {
      var grouped := GroupByVMID(all);
      var active := store.Select(P.Active);
      assert active == [] <==> j.active == {} by {
        if active != [] { assert active[0] in active; }
      }
      var believed := source != BackupFallback && (source == WebhookDelta || |all| > 0 || |active| == 0);
      applied, nft, desired := map[], [], {};
      PartDoneStart(j);
      ghost var done: set<int> := {};
      for i := 0 to |active|
        invariant done == Turns(active, i)
        invariant PartDone(j, done, backup.Abs(), applied, nft, desired)
      {
        var v := active[i];
        TurnOf(active, i);
        ResolveOneIs(j, done, v);
        PartDoneNext(j, done, backup.Abs(), applied, nft, desired, v);
        var ms := Resolve(v, if v in grouped then grouped[v] else [], source, believed, noRead);
        done := done + {v};
        if |ms| > 0 {
          applied := applied[v := ms];
          nft, desired := nft + ms, desired + set x | x in ms :: x.external;
        }
      }
      AllTurns(active, j.active);
      AllDone(j);
    }

    /** Hands the rules to nft unless they are what it was last handed. */
    method ApplyNFT(rules: seq<Pair>, key: string, skip: bool, fails: Option<seq<Pair>>)
      returns (ok: bool, ghost es: seq<Event>)
      modifies this`lastRulesetKey, this`rulesetKeyValid, host
      ensures NftDone(rules, key, skip, fails, es, ok, old(lastRulesetKey), old(rulesetKeyValid), lastRulesetKey,
                      rulesetKeyValid)
      ensures host.log == old(host.log) + es && host.Abs() == Replay(old(host.Abs()), es) && host.lo == old(host.lo)
    {
      if skip {
        return true, [];
      }
      ghost var k := host.Abs();
      ok := host.NftApply(rules, fails);
      es := [Event.NftApply(host.rules, ok)];
      ReplayOne(k, [], es[0]);
      if !ok {
        rulesetKeyValid := false;
        return;
      }
      lastRulesetKey, rulesetKeyValid := key, true;
    }

    /** Announcements first: nothing new is announced, or no rule needs installing. */
    method WithdrawFirst(rules: seq<Pair>, desired: set<Addr>, managed: set<Addr>, f: Faults, key: string, skip: bool)
      returns (ok: bool, ghost pass: seq<Event>, ghost nft: seq<Event>)
      modifies this`lastRulesetKey, this`rulesetKeyValid, this`advertisedIPs, this`kernelSynced, host
      ensures var a := Begun(old(CoreAbs()), old(host.Abs()), managed, f);
              PassEvents(a, desired, f, pass) && Announced(advertisedIPs, kernelSynced) == Pass(a, desired, f)
      ensures NftDone(rules, key, skip, f.nft, nft, ok, old(lastRulesetKey), old(rulesetKeyValid), lastRulesetKey,
                      rulesetKeyValid)
      ensures host.Abs() == Replay(Replay(old(host.Abs()), pass), nft) && host.log == old(host.log) + pass + nft
    {
      var _, bgpEs := ReconcileBGP(desired, managed, f);
      ok, nft := ApplyNFT(rules, key, skip, f.nft);
      pass := bgpEs;
    }

    /** Rules first; the announcements wait for them and are left alone if nft fails. */
    method InstallFirst(rules: seq<Pair>, desired: set<Addr>, managed: set<Addr>, f: Faults, key: string, skip: bool)
      returns (ok: bool, ghost pass: seq<Event>, ghost nft: seq<Event>)
      modifies this`lastRulesetKey, this`rulesetKeyValid, this`advertisedIPs, this`kernelSynced, host
      ensures var a := Begun(old(CoreAbs()), old(host.Abs()), managed, f);
              if ok then PassEvents(a, desired, f, pass) &&
                         Announced(advertisedIPs, kernelSynced) == Pass(a, desired, f)
              else pass == [] && Announced(advertisedIPs, kernelSynced) == old(CoreAbs()).announced
      ensures NftDone(rules, key, skip, f.nft, nft, ok, old(lastRulesetKey), old(rulesetKeyValid), lastRulesetKey,
                      rulesetKeyValid)
      ensures host.Abs() == Replay(Replay(old(host.Abs()), nft), pass) && host.log == old(host.log) + nft + pass
    {
      ok, nft := ApplyNFT(rules, key, skip, f.nft);
      pass := [];
      if !ok {
        return;
      }
      var _, bgpEs := ReconcileBGP(desired, managed, f);
      pass := bgpEs;
    }

    /** Brings the kernel to what applied calls for, in the order the directions call for, and records it on success. */
    method Converge(rules: seq<Pair>, desired: set<Addr>, managed: set<Addr>, f: Faults, key: string,
                    applied: map<int, seq<Mapping>>)
      returns (ok: bool, ghost es: seq<Event>)
      requires rules == Ruleset(applied) && desired == Externals(applied) && key == RulesetKey(env.text, rules)
      modifies this`lastRulesetKey, this`rulesetKeyValid, this`lastAppliedByVMID, this`advertisedIPs,
               this`kernelSynced, host
      ensures ApplyEvents(env.text, old(CoreAbs()), old(host.Abs()), applied, managed, f, es)
      ensures host.Abs() == Replay(old(host.Abs()), es) && host.log == old(host.log) + es
      ensures ok <==> !Failed(env.text, old(CoreAbs()), applied, f)
      ensures CoreAbs() == CoreAfter(env.text, old(CoreAbs()), old(host.Abs()), applied, managed, f)
    {
      ghost var c, k, log := CoreAbs(), host.Abs(), host.log;
      var rulesetUnchanged := rulesetKeyValid && key == lastRulesetKey;
      var added := HasNewAdvertisements(desired);
      var advertiseFirst := rulesetUnchanged || !added;
      ghost var pass, nft;
      if advertiseFirst {
        ok, pass, nft := WithdrawFirst(rules, desired, managed, f, key, rulesetUnchanged);
        es := pass + nft;
        InTwoHalves(k, log, pass, nft);
      } else {
        ok, pass, nft := InstallFirst(rules, desired, managed, f, key, rulesetUnchanged);
        es := nft + pass;
        InTwoHalves(k, log, nft, pass);
      }
      if ok {
        lastAppliedByVMID := applied;
      }
      Converged(env.text, c, k, applied, managed, f, pass, nft, ok, CoreAbs());
    }

    /** What an apply is to bring about, with the fingerprint of its rules. */
    method PlanApply(all: seq<Mapping>, source: Source, noRead: set<int>, ghost j: Job)
      returns (applied: map<int, seq<Mapping>>, rules: seq<Pair>, desired: set<Addr>, key: string)
      requires j == JobNow(all, source, noRead)
      modifies backup
      ensures backup.Abs() == BackupAfter(j) && applied == Applied(j)
      ensures rules == Ruleset(applied) && desired == Externals(applied) && key == RulesetKey(env.text, rules)
    {
      var nft;
      applied, nft, desired := DesiredState(all, source, noRead, j);
      var sorted := SortedCopy(nft);
      SortedIsRules(Flatten(applied), sorted);
      rules := PairsOf(sorted);
      key := BuildRulesetKey(env.text, sorted);
    }

    /** The managed set is only worked out while adoption is still to come. */
    method ManagedForAdoption() returns (managed: set<Addr>)
      modifies backup
      ensures backup.Abs() == old(backup.Abs())
      ensures managed == if kernelSynced then {} else Managed(CacheAbs(), backup.Abs())
    {
      managed := {};
      if !kernelSynced {
        managed := ManagedIPs();
      }
    }

    /** One apply: resolve, fingerprint, and converge the kernel. */
    method ApplyMappings(all: seq<Mapping>, source: Source, t: Trouble, ghost j: Job)
      returns (ok: bool, ghost es: seq<Event>)
      requires j == JobNow(all, source, t.noRead)
      modifies this`lastRulesetKey, this`rulesetKeyValid, this`lastAppliedByVMID, this`advertisedIPs,
               this`kernelSynced, backup, host
      ensures backup.Abs() == BackupAfter(j)
      ensures ApplyStep(env.text, old(CoreAbs()), old(host.Abs()), Applied(j), Managed(CacheAbs(), backup.Abs()),
                        t.kernel, es, CoreAbs(), host.Abs())
      ensures ok <==> !Failed(env.text, old(CoreAbs()), Applied(j), t.kernel)
      ensures host.log == old(host.log) + es
    {
      ghost var c, k := CoreAbs(), host.Abs();
      var applied, rules, desired, key := PlanApply(all, source, t.noRead, j);
      var managed := ManagedForAdoption();
      ok, es := Converge(rules, desired, managed, t.kernel, key, applied);
      OnceAdopted(env.text, c, k, applied, managed, Managed(CacheAbs(), backup.Abs()), t.kernel, es);
    }

    // ---- The mapping cache ----

    method RebuildMappingCache(ms: seq<Mapping>)
      modifies this`mappingCacheReady, this`mappingByVMID, this`mappingPendingByName, this`vmIDByName
      ensures CacheAbs() == Rebuild(ms)
    {
      mappingByVMID, mappingPendingByName, vmIDByName := map[], map[], map[];
      for i := 0 to |ms|
        invariant Cache(true, mappingByVMID, mappingPendingByName, vmIDByName) == Rebuild(ms[..i])
      {
        var m := ms[i];
        assert ms[..i + 1][..i] == ms[..i];
        mappingByVMID := mappingByVMID[m.vmid := (if m.vmid in mappingByVMID then mappingByVMID[m.vmid] else []) + [m]];
        if m.name != "" {
          vmIDByName := vmIDByName[m.name := m.vmid];
        }
      }
      assert ms[..|ms|] == ms;
      mappingCacheReady := true;
    }

    /** A name that comes with its VMID takes over what was waiting under the name. */
    method LearnVMID(d: Delta)
      modifies this`mappingByVMID, this`mappingPendingByName, this`vmIDByName
      ensures CacheAbs() == Learn(old(CacheAbs()), d)
    {
      if d.hasVMID && d.name != "" {
        vmIDByName := vmIDByName[d.name := d.vmid];
        if d.name in mappingPendingByName {
          var waiting := mappingPendingByName[d.name];
          ghost var was := waiting;
          for i := 0 to |waiting|
            invariant |waiting| == |was|
            invariant forall k | 0 <= k < |was| :: waiting[k] == if k < i then was[k].(vmid := d.vmid) else was[k]
          {
            waiting := waiting[i := waiting[i].(vmid := d.vmid)];
          }
          assert waiting == Retarget(was, d.vmid);
          mappingByVMID := mappingByVMID[d.vmid := waiting];
        }
        mappingPendingByName := mappingPendingByName - {d.name};
      }
    }

    method TargetVMID(d: Delta, name: string) returns (v: int)
      ensures v == Target(CacheAbs(), d, name)
    {
      v := 0;
      if d.hasVMID {
        v := d.vmid;
      } else if name != "" {
        v := if name in vmIDByName then vmIDByName[name] else 0;
      }
    }

    /** A deleted VM takes its mappings, its names and what waits under them with it. */
    method ForgetDeletedVM(d: Delta)
      modifies this`mappingByVMID, this`mappingPendingByName, this`vmIDByName
      ensures CacheAbs() == ForgetVM(old(CacheAbs()), d)
    {
      ghost var c := CacheAbs();
      var v := TargetVMID(d, d.name);
      if v > 0 {
        mappingByVMID := mappingByVMID - {v};
        var todo := vmIDByName.Keys;
        while todo != {}
          invariant todo <= c.idByName.Keys && mappingByVMID == c.byVMID - {v}
          invariant vmIDByName == c.idByName - (NamesOf(c, v) - todo)
          invariant mappingPendingByName == c.pending - (NamesOf(c, v) - todo)
          decreases todo
        {
          ghost var w := Pick(todo);
          assert w in todo;
          var n :| n in todo;
          ForgetOneMore(c, v, todo, n);
          todo := todo - {n};
          if vmIDByName[n] == v {
            vmIDByName := vmIDByName - {n};
            mappingPendingByName := mappingPendingByName - {n};
          }
        }
        assert NamesOf(c, v) - todo == NamesOf(c, v);
      }
      ForgotVM(c, d);
      if d.name != "" {
        mappingPendingByName := mappingPendingByName - {d.name};
      }
    }

    method ForgetAddresses(v: int, name: string)
      modifies this`mappingByVMID, this`mappingPendingByName
      ensures CacheAbs() == ForgetIP(old(CacheAbs()), v, name)
    {
      if v > 0 {
        mappingByVMID := mappingByVMID - {v};
      }
      if name != "" {
        mappingPendingByName := mappingPendingByName - {name};
      }
    }

    method ApplyAddressDelta(d: Delta)
      modifies this`mappingByVMID, this`mappingPendingByName, this`vmIDByName
      ensures CacheAbs() == UpdateIP(env.parse, old(CacheAbs()), d)
    {
      var name := Trim(d.name);
      var v := TargetVMID(d, name);
      if v <= 0 && name == "" {
        return;
      }
      if IsDeleted(d) || Trim(d.internal) == "" || |d.outside| == 0 {
        ForgetAddresses(v, name);
        return;
      }
      var internal := env.parse(d.internal);
      if internal.None? {
        return;
      }
      var entries := BuildEntries(env.parse, d.outside, internal.value, v, name);
      if |entries| == 0 {
        ForgetAddresses(v, name);
        return;
      }
      if v > 0 {
        mappingByVMID := mappingByVMID[v := entries];
      } else if name != "" {
        mappingPendingByName := mappingPendingByName[name := entries];
      }
      if v > 0 && name != "" {
        vmIDByName := vmIDByName[name := v];
      }
    }

    method ApplyDeltaToCache(d: Delta)
      modifies this`mappingByVMID, this`mappingPendingByName, this`vmIDByName
      ensures CacheAbs() == Update(env.parse, old(CacheAbs()), d)
    {
      LearnVMID(d);
      if IsVM(d) {
        if IsDeleted(d) {
          ForgetDeletedVM(d);
        }
        return;
      }
      if IsIP(d) {
        ApplyAddressDelta(d);
      }
    }

    // ---- Webhook deltas ----

    method ApplyDeltaToState(d: Delta, now: int)
      modifies store
      ensures store.vms == DeltaVms(old(store.vms), d, now)
    {
      if !d.hasVMID || Trim(d.name) == "" || !IsVM(d) {
        return;
      }
      if IsDeleted(d) {
        store.SetAbsent(d.vmid, now);
        return;
      }
      store.SetActive(d.vmid, d.name, now);
    }

    /** Merges an address delta into the VM's backup, or drops the backup of a deleted VM. */
    method SyncBackupFromDelta(d: Delta, noRead: set<int>)
      modifies backup
      ensures backup.Abs() == SyncBackup(env.parse, CacheAbs(), store.vms, old(backup.Abs()), d, noRead)
    {
      var v := TargetVMID(d, d.name);
      if v <= 0 {
        return;
      }
      if IsVM(d) {
        if IsDeleted(d) {
          backup.Delete(v);
        }
        return;
      }
      if !IsIP(d) || v !in store.vms || store.vms[v].status != P.Active {
        return;
      }
      var internal := env.parse(d.internal);
      if internal.None? {
        return;
      }
      ghost var b := backup.Abs();
      var loaded := backup.Load(v, noRead);
      if loaded.Error? {
        SyncDone(env.parse, CacheAbs(), store.vms, b, d, noRead);
        return;
      }
      var updated := MergeDelta(env.parse, if loaded.Found? then loaded.mappings else [], d, internal.value, v);
      if |updated| == 0 {
        if loaded.Found? {
          backup.Delete(v);
        }
      } else {
        backup.Save(v, updated);
      }
      SyncDone(env.parse, CacheAbs(), store.vms, b, d, noRead);
    }

    // ---- Whole operations ----

    /** An apply at the end of its preparations is an apply step of the node n they began from. */
    method ApplyPrepared(all: seq<Mapping>, source: Source, t: Trouble, ghost n: Node, ghost o: Origin)
      returns (ok: bool, ghost es: seq<Event>)
      requires SourceOf(o) == source && Listed(env, n, o, all)
      requires store.vms == PreparedVms(n, o) && CacheAbs() == PreparedCache(env, n, o, all)
      requires backup.Abs() == PreparedBackup(env, n, o, all) && CoreAbs() == n.core && host.Abs() == n.kernel
      requires lastFullFetch == n.gate.last && lastActiveKey == n.gate.key && reconcileQueued == n.queued
      modifies this`lastRulesetKey, this`rulesetKeyValid, this`lastAppliedByVMID, this`advertisedIPs,
               this`kernelSynced, backup, host
      ensures Step(env, n, Act.Apply(o, all, t), es, Abs())
      ensures ok <==> !Failed(env.text, n.core, Applied(JobOf(env, n, o, all, t)), t.kernel)
      ensures host.log == old(host.log) + es
    {
      ok, es := ApplyMappings(all, source, t, JobOf(env, n, o, all, t));
    }

    /** What a webhook delta changes before the apply: placement, cache, backup. */
    method PrepareDelta(d: Delta, now: int, noRead: set<int>)
      modifies this`mappingCacheReady, this`mappingByVMID, this`mappingPendingByName, this`vmIDByName, store, backup
      ensures store.vms == DeltaVms(old(store.vms), d, now)
      ensures CacheAbs() == Update(env.parse, Readied(old(CacheAbs())), d)
      ensures backup.Abs() == SyncBackup(env.parse, CacheAbs(), store.vms, old(backup.Abs()), d, noRead)
    {
      if !mappingCacheReady {
        mappingByVMID, mappingPendingByName, vmIDByName := map[], map[], map[];
        mappingCacheReady := true;
      }
      ApplyDeltaToState(d, now);
      ApplyDeltaToCache(d);
      SyncBackupFromDelta(d, noRead);
    }

    /** A webhook delta is an explicit mutation, so the apply that follows believes it. */
    method ReconcileFromWebhookDelta(d: Delta, now: int, noRead: set<int>, t: Trouble)
      returns (ok: bool, ghost all: seq<Mapping>, ghost es: seq<Event>)
      modifies this, store, backup, host
      ensures Step(env, old(Abs()), Act.Apply(Hook(d, now, noRead), all, t), es, Abs())
      ensures ok <==> !Failed(env.text, old(CoreAbs()),
                              Applied(JobOf(env, old(Abs()), Hook(d, now, noRead), all, t)), t.kernel)
      ensures host.log == old(host.log) + es
    {
      ghost var n := Abs();
      PrepareDelta(d, now, noRead);
      var listing := CachedMappings();
      ok, es := ApplyPrepared(listing, WebhookDelta, t, n, Hook(d, now, noRead));
      all := listing;
    }

    /** Remembers when the last fetch succeeded and for which VMs. */
    method RecordFetched(now: int)
      modifies this`lastFullFetch, this`lastActiveKey
      ensures lastFullFetch == now && lastActiveKey == G.KeyOf(G.Held(store.vms))
    {
      lastFullFetch := now;
      lastActiveKey := G.ActiveStateKey(store);
    }

    /** A fetch that succeeded is recorded and then believed. */
    method ReconcileFetched(ms: seq<Mapping>, now: int, t: Trouble)
      returns (ok: bool, ghost l: Node, ghost es: seq<Event>)
      modifies this, backup, host
      ensures l == old(Abs()).(gate := G.Gate(now, G.KeyOf(G.Held(old(store.vms)))))
      ensures Step(env, l, Act.Apply(Fetched, ms, t), es, Abs())
      ensures host.log == old(host.log) + es
    {
      l := Abs().(gate := G.Gate(now, G.KeyOf(G.Held(store.vms))));
      RecordFetched(now);
      RebuildMappingCache(ms);
      ok, es := ApplyPrepared(ms, FullFetch, t, l, Fetched);
    }

    /** A fetch that failed: the backups have to do. */
    method ReconcileFallback(t: Trouble) returns (ok: bool, ghost es: seq<Event>)
      modifies this, backup, host
      ensures Step(env, old(Abs()), Act.Apply(FetchFailed, [], t), es, Abs())
      ensures host.log == old(host.log) + es
    {
      ok, es := ApplyPrepared([], BackupFallback, t, Abs(), FetchFailed);
    }

    /** One reconcile; fetch is what NetBox answered, None if the request failed. */
    method Reconcile(fetch: Option<seq<Mapping>>, now: int, t: Trouble) returns (ok: bool, ghost p: Path)
      modifies this, backup, host
      ensures Leads(env, old(Abs()), p, Abs()) && p.acts == CycleActs(fetch, now, t)
      ensures host.log == old(host.log) + Log(p.ess)
    {
      ghost var n, l, es := Abs(), Abs(), [];
      if fetch.None? {
        ok, es := ReconcileFallback(t);
      } else {
        ok, l, es := ReconcileFetched(fetch.value, now, t);
      }
      p := CyclePath(env, n, fetch, now, t, l, es, Abs());
    }

    /** Takes the queued signal, if any, and runs one reconcile. */
    method RunQueued(fetch: Option<seq<Mapping>>, now: int, t: Trouble) returns (ok: bool, ghost p: Path)
      modifies this, backup, host
      ensures Leads(env, old(Abs()), p, Abs()) && p.acts == [Dequeue] + CycleActs(fetch, now, t)
      ensures host.log == old(host.log) + Log(p.ess)
    {
      ghost var n := Abs();
      ghost var l := n.(queued := false);
      reconcileQueued := false;
      ghost var q;
      ok, q := Reconcile(fetch, now, t);
      p := DequeuedPath(env, n, l, q, Abs());
    }

    /** The cutover path; when the cache is cold the queued reconcile has to do. */
    method CutOver(t: Trouble) returns (fast: bool, ghost a: Act, ghost es: seq<Event>)
      modifies this, backup, host
      ensures fast == old(mappingCacheReady) && CacheAbs() == old(CacheAbs())
      ensures Step(env, old(Abs()), a, es, Abs()) && host.log == old(host.log) + es
      ensures if fast then a.Apply? && a == Act.Apply(FastPath, a.all, t) else a == Queue && es == []
    {
      ghost var n := Abs();
      fast := mappingCacheReady;
      if fast {
        var all := CachedMappings();
        var _, done := ApplyPrepared(all, Source.CachedMappings, t, n, FastPath);
        a, es := Act.Apply(FastPath, all, t), done;
      } else {
        reconcileQueued := true;
        a, es := Queue, [];
      }
    }

    // ---- Cluster events ----

    method SetPlacement(v: int, name: string, status: P.Status, t: int)
      requires status == P.Absent ==> name == ""
      modifies store
      ensures store.vms == P.SetStatus(old(store.vms), v, name, status, t)
    {
      match status
      case Active => store.SetActive(v, name, t);
      case Staged => store.SetStaged(v, name, t);
      case Absent => store.SetAbsent(v, t);
    }

    method PlaceAndCutOver(v: int, name: string, status: P.Status, t: int, tr: Trouble)
      returns (ghost listing: seq<Mapping>, ghost p: Path)
      requires status == P.Absent ==> name == ""
      modifies this, store, backup, host
      ensures Leads(env, old(Abs()), p, Abs()) && CacheAbs() == old(CacheAbs())
      ensures p.acts == [Place(v, name, status, t)] + FastActs(old(CacheAbs()), listing, tr)
      ensures host.log == old(host.log) + Log(p.ess)
    {
      ghost var n := Abs();
      SetPlacement(v, name, status, t);
      ghost var l := Abs();
      assert l == n.(vms := P.SetStatus(n.vms, v, name, status, t));
      var fast, a, es := CutOver(tr);
      listing, p := CutOverPath(env, n, v, name, status, t, l, a, es, Abs(), tr);
    }

    method PlaceAndQueue(v: int, name: string, status: P.Status, t: int) returns (ghost p: Path)
      requires status == P.Absent ==> name == ""
      modifies this`reconcileQueued, store
      ensures Leads(env, old(Abs()), p, Abs()) && p.acts == [Place(v, name, status, t), Queue] && Log(p.ess) == []
    {
      ghost var n := Abs();
      ghost var l := n.(vms := P.SetStatus(n.vms, v, name, status, t));
      SetPlacement(v, name, status, t);
      reconcileQueued := true;
      p := LeadsTwice(env, n, Place(v, name, status, t), [], l, Queue, [], Abs());
    }

    /** The target takes a migrated VM on. */
    method OnSyncedTarget(ev: CloudEvent, t: int, tr: Trouble) returns (ghost listing: seq<Mapping>, ghost p: Path)
      modifies this, store, backup, host
      ensures Leads(env, old(Abs()), p, Abs()) && CacheAbs() == old(CacheAbs())
      ensures p.acts == TargetActs(env.self, old(CacheAbs()), ev, t, listing, tr)
      ensures host.log == old(host.log) + Log(p.ess)
    {
      listing, p := [], Stay(Abs());
      if SameNode(ev.target, env.self) {
        listing, p := PlaceAndCutOver(ev.vmid, ev.name, P.Active, t, tr);
      }
    }

    /** The source lets go of it. */
    method OnSyncedSource(ev: CloudEvent, t: int, tr: Trouble) returns (ghost listing: seq<Mapping>, ghost p: Path)
      modifies this, store, backup, host
      ensures Leads(env, old(Abs()), p, Abs())
      ensures p.acts == SourceActs(env.self, old(CacheAbs()), ev, t, listing, tr)
      ensures host.log == old(host.log) + Log(p.ess)
    {
      listing, p := [], Stay(Abs());
      if SameNode(ev.node, env.self) {
        listing, p := PlaceAndCutOver(ev.vmid, "", P.Absent, t, tr);
      }
    }

    method OnSynced(ev: CloudEvent, t: int, t1: Trouble, t2: Trouble)
      returns (ghost first: seq<Mapping>, ghost second: seq<Mapping>, ghost p: Path)
      modifies this, store, backup, host
      ensures Leads(env, old(Abs()), p, Abs())
      ensures p.acts == SyncedActs(env.self, old(CacheAbs()), ev, t, first, second, t1, t2)
      ensures host.log == old(host.log) + Log(p.ess)
    {
      ghost var n := Abs();
      ghost var p1, p2;
      first, p1 := OnSyncedTarget(ev, t, t1);
      ghost var l := Abs();
      second, p2 := OnSyncedSource(ev, t, t2);
      p := SyncedPath(env, n, p1, l, p2, Abs(), ev, t, first, second, t1, t2);
    }

    method HandleMigration(ev: CloudEvent, t: int, t1: Trouble, t2: Trouble)
      returns (ghost first: seq<Mapping>, ghost second: seq<Mapping>, ghost p: Path)
      requires MigrationHere(env.self, ev)
      modifies this, store, backup, host
      ensures Leads(env, old(Abs()), p, Abs()) &&
              p.acts == MigrationActs(env.self, old(CacheAbs()), ev, t, first, second, t1, t2)
      ensures host.log == old(host.log) + Log(p.ess)
    {
      first, second := [], [];
      if ev.phase == "started" {
        first, p := PlaceAndCutOver(ev.vmid, ev.name, P.Staged, t, t1);
      } else if ev.phase == "synced" {
        first, second, p := OnSynced(ev, t, t1, t2);
      } else {
        first, p := PlaceAndCutOver(ev.vmid, "", P.Absent, t, t1);
      }
    }

    method HandleLifecycle(ev: CloudEvent, t: int) returns (ghost p: Path)
      requires LifecycleHere(env.self, ev)
      modifies this, store
      ensures Leads(env, old(Abs()), p, Abs()) && p.acts == LifecycleActs(old(store.vms), ev, t) && Log(p.ess) == []
    {
      if ev.action == "start" {
        if ev.vmid in store.vms && store.vms[ev.vmid].status == P.Staged {
          p := Stay(Abs());
        } else {
          p := PlaceAndQueue(ev.vmid, ev.name, P.Active, t);
        }
      } else {
        p := PlaceAndQueue(ev.vmid, "", P.Absent, t);
      }
    }

    method HandleSnapshot(ev: CloudEvent, now: int, interval: int) returns (ghost p: Path)
      modifies this, store
      ensures Leads(env, old(Abs()), p, Abs()) && p.acts == SnapshotActs(env.self, old(Abs()), ev, now, interval) &&
              Log(p.ess) == []
    {
      ghost var n := Abs();
      p := Stay(n);
      if IsSnapshot(ev) && SameNode(ev.node, env.self) {
        store.UpdateFromSnapshot(ev.vmid, ev.name, ev.state == "running", ev.observed);
        p := LeadsOnce(env, n, Act.Observe(ev.vmid, ev.name, ev.state == "running", ev.observed), [], Abs());
      } else if IsBatchEnd(ev) && (SameNode(ev.node, env.self) || Trim(ev.node) == "") {
        var due := ShouldFullFetchForSnapshot(interval, now);
        if due {
          reconcileQueued := true;
          p := LeadsOnce(env, n, Queue, [], Abs());
        }
      }
    }

    /** The callback for cluster events. */
    method HandleEvent(ev: CloudEvent, now: int, interval: int, t1: Trouble, t2: Trouble)
      returns (ghost w: Moment, ghost p: Path)
      modifies this, store, backup, host
      ensures w == Moment(now, interval, w.first, w.second, t1, t2)
      ensures Leads(env, old(Abs()), p, Abs()) && p.acts == HandleActs(env.self, old(Abs()), ev, w)
      ensures host.log == old(host.log) + Log(p.ess)
    {
      var t := if ev.time.Some? then ev.time.value else now;
      ghost var first, second := [], [];
      if MigrationHere(env.self, ev) {
        first, second, p := HandleMigration(ev, t, t1, t2);
      } else if LifecycleHere(env.self, ev) {
        p := HandleLifecycle(ev, t);
      } else {
        p := HandleSnapshot(ev, now, interval);
      }
      w := Moment(now, interval, first, second, t1, t2);
    }

    method ShouldFullFetchForSnapshot(interval: int, now: int) returns (due: bool)
      ensures due <==> G.ShouldFetch(G.Gate(lastFullFetch, lastActiveKey), G.KeyOf(G.Held(store.vms)), interval, now)
    {
      var key := G.ActiveStateKey(store);
      if key != lastActiveKey {
        return true;
      }
      return interval <= 0 || G.Since(lastFullFetch, now) >= interval;
    }

    // ---- Housekeeping ----

    /** What the cache starts from: NetBox's answer or, failing that, every backed-up mapping. */
    method Seed(fetch: Option<seq<Mapping>>) returns (seed: seq<Mapping>, found: bool)
      modifies backup
      ensures backup.Abs() == old(backup.Abs())
      ensures fetch.Some? ==> found && seed == fetch.value
      ensures fetch.None? ==> (set m | m in seed) == KnownMappings(backup.Abs()) && (found <==> seed != [])
    {
      if fetch.Some? {
        return fetch.value, true;
      }
      seed := backup.All();
      found := |seed| > 0;
    }

    /** Startup: scan the backups, then fill the cache if there is anything to fill it with. */
    method Prime(scan: B.Scan, fetch: Option<seq<Mapping>>) returns (ghost p: Path, ghost seed: seq<Mapping>)
      modifies this, backup
      ensures Leads(env, old(Abs()), p, Abs()) && Log(p.ess) == []
      ensures fetch.Some? ==> p.acts == [WarmBackup(scan), SeedCache(fetch.value)]
      ensures fetch.None? ==> p.acts == [WarmBackup(scan)] + (if seed == [] then [] else [SeedCache(seed)]) &&
                              (set m | m in seed) == KnownMappings(B.Warm(old(backup.Abs()), scan))
    {
      ghost var n := Abs();
      backup.Warm(scan);
      ghost var l := Abs();
      var initial, found := Seed(fetch);
      if found {
        RebuildMappingCache(initial);
      }
      p := PrimePath(env, n, scan, l, found, initial, Abs());
      seed := initial;
    }

    /** The periodic tick. */
    method Tick(cutoff: int) returns (ghost p: Path)
      modifies this`reconcileQueued, store
      ensures Leads(env, old(Abs()), p, Abs()) && p.acts == [Act.ExpireStaged(cutoff), Queue] && Log(p.ess) == []
    {
      ghost var n := Abs();
      ghost var l := n.(vms := P.ExpireAll(n.vms, cutoff));
      var expired := store.ExpireStaged(cutoff);
      reconcileQueued := true;
      p := LeadsTwice(env, n, Act.ExpireStaged(cutoff), [], l, Queue, [], Abs());
    }

    method FlushBackups(fails: map<int, Option<B.Bytes>>) returns (ok: bool)
      modifies backup
      ensures Step(env, old(Abs()), FlushBackup(fails), [], Abs())
      ensures ok <==> B.FlushOk(old(backup.Abs()), fails)
    {
      ok := backup.Flush(fails);
    }

    method CloseBackups(fails: map<int, Option<B.Bytes>>) returns (ok: bool)
      modifies backup
      ensures Step(env, old(Abs()), CloseBackup(fails), [], Abs())
      ensures ok <==> backup.pending == map[]
    {
      ok := backup.Close(fails);
    }

    /** Shutdown withdraws what was advertised and, with nothing managed, adopts nothing. */
    method FlushRoutes(f: Faults) returns (ok: bool, ghost es: seq<Event>)
      modifies this`advertisedIPs, this`kernelSynced, host
      ensures Step(env, old(Abs()), Act.FlushRoutes(f), es, Abs()) && host.log == old(host.log) + es
      ensures ok <==> PassOk(old(CoreAbs()).announced, {}, f)
    {
      assert Adopt(CoreAbs().announced, host.lo, {}, f) == CoreAbs().announced;
      ok, es := ReconcileBGP({}, {}, f);
    }
  }

  // ---- The two halves of an apply ----

  /** The nft half: its operations, its outcome and what it does to the fingerprint. */
  ghost predicate NftDone(rules: seq<Pair>, key: string, skip: bool, fails: Option<seq<Pair>>, es: seq<Event>, ok: bool,
                          lastKey: string, keyValid: bool, lastKey': string, keyValid': bool) {
    && (ok <==> skip || fails.None?)
    && es == (if skip then [] else [Event.NftApply(if fails.Some? then fails.value else rules, fails.None?)])
    && lastKey' == (if skip || fails.Some? then lastKey else key)
    && keyValid' == if skip then keyValid else fails.None?
  }

  lemma InTwoHalves(k: Kernel, log: seq<Event>, first: seq<Event>, second: seq<Event>)
    ensures Replay(Replay(k, first), second) == Replay(k, first + second)
    ensures log + first + second == log + (first + second)
  {
    ReplayAppend(k, first, second);
  }

  lemma Converged(text: Addr -> string, c: Core, k: Kernel, applied: map<int, seq<Mapping>>, managed: set<Addr>,
                  f: Faults, pass: seq<Event>, nft: seq<Event>, ok: bool, c': Core)
    requires var rules := Ruleset(applied);
             NftDone(rules, RulesetKey(text, rules), Unchanged(text, c, applied), f.nft, nft, ok, c.lastKey,
                     c.keyValid, c'.lastKey, c'.keyValid)
    requires var a, desired := Begun(c, k, managed, f), Externals(applied);
             if ok || BgpFirst(text, c, applied)
             then PassEvents(a, desired, f, pass) && c'.announced == Pass(a, desired, f)
             else pass == [] && c'.announced == c.announced
    requires c'.lastApplied == if ok then applied else c.lastApplied
    ensures ApplyEvents(text, c, k, applied, managed, f, if BgpFirst(text, c, applied) then pass + nft else nft + pass)
    ensures ok <==> !Failed(text, c, applied, f)
    ensures c' == CoreAfter(text, c, k, applied, managed, f)
  {
    HalvesMakeApply(text, c, k, applied, managed, f, pass);
    assert nft + [] == nft;
  }

  // ---- The two halves of an announcing pass ----

  /** Of desired, all but todo has been looked at: ads are the attempts, adv what is live now. */
  ghost predicate Advertised(ads: seq<Addr>, todo: set<Addr>, desired: set<Addr>, had: set<Addr>, f: Faults,
                             adv: set<Addr>, ok: bool) {
    && Enumerates(ads, desired - todo - had)
    && adv == had + (desired - todo - f.noAdvertise)
    && (ok <==> (desired - todo - had) !! f.noAdvertise)
  }

  lemma AdvertisedOneMore(ads: seq<Addr>, todo: set<Addr>, desired: set<Addr>, had: set<Addr>, f: Faults,
                          adv: set<Addr>, ok: bool, ip: Addr)
    requires Advertised(ads, todo, desired, had, f, adv, ok) && ip in todo && todo <= desired
    ensures ip in adv ==> Advertised(ads, todo - {ip}, desired, had, f, adv, ok)
    ensures ip !in adv && ip !in f.noAdvertise ==> Advertised(ads + [ip], todo - {ip}, desired, had, f, adv + {ip}, ok)
    ensures ip !in adv && ip in f.noAdvertise ==> Advertised(ads + [ip], todo - {ip}, desired, had, f, adv, false)
  {
    assert desired - (todo - {ip}) == (desired - todo) + {ip};
    if ip in had {
      assert desired - (todo - {ip}) - had == desired - todo - had;
    } else {
      assert desired - (todo - {ip}) - had == (desired - todo - had) + {ip};
      EnumeratesAdd(ads, desired - todo - had, ip);
    }
  }

  lemma AdEventsOneMore(k: Kernel, ads: seq<Addr>, f: Faults, ip: Addr)
    ensures AdEvents(ads + [ip], f) == AdEvents(ads, f) + [Event.Advertise(ip, ip !in f.noAdvertise)]
    ensures Replay(k, AdEvents(ads + [ip], f)) ==
            Perform(Replay(k, AdEvents(ads, f)), Event.Advertise(ip, ip !in f.noAdvertise))
  {
    ReplayOne(k, AdEvents(ads, f), Event.Advertise(ip, ip !in f.noAdvertise));
  }

  /** Of had, all but todo has been looked at: wds are the attempts, adv what is still live. */
  ghost predicate Withdrawn(wds: seq<Addr>, todo: set<Addr>, desired: set<Addr>, had: set<Addr>, f: Faults,
                            adv: set<Addr>, ok: bool) {
    && Enumerates(wds, had - todo - desired)
    && adv == had - (had - todo - desired - f.noWithdraw)
    && (ok <==> (had - todo - desired) !! f.noWithdraw)
  }

  lemma WithdrawnOneMore(wds: seq<Addr>, todo: set<Addr>, desired: set<Addr>, had: set<Addr>, f: Faults,
                         adv: set<Addr>, ok: bool, ip: Addr)
    requires Withdrawn(wds, todo, desired, had, f, adv, ok) && ip in todo && todo <= had
    ensures ip in desired ==> Withdrawn(wds, todo - {ip}, desired, had, f, adv, ok)
    ensures ip !in desired && ip !in f.noWithdraw ==>
            Withdrawn(wds + [ip], todo - {ip}, desired, had, f, adv - {ip}, ok)
    ensures ip !in desired && ip in f.noWithdraw ==> Withdrawn(wds + [ip], todo - {ip}, desired, had, f, adv, false)
  {
    assert had - (todo - {ip}) == (had - todo) + {ip};
    if ip in desired {
      assert had - (todo - {ip}) - desired == had - todo - desired;
    } else {
      assert had - (todo - {ip}) - desired == (had - todo - desired) + {ip};
      EnumeratesAdd(wds, had - todo - desired, ip);
    }
  }

  lemma WdEventsOneMore(k: Kernel, wds: seq<Addr>, f: Faults, ip: Addr)
    ensures WdEvents(wds + [ip], f) == WdEvents(wds, f) + [Event.Withdraw(ip, ip !in f.noWithdraw)]
    ensures Replay(k, WdEvents(wds + [ip], f)) ==
            Perform(Replay(k, WdEvents(wds, f)), Event.Withdraw(ip, ip !in f.noWithdraw))
  {
    ReplayOne(k, WdEvents(wds, f), Event.Withdraw(ip, ip !in f.noWithdraw));
  }

  lemma PassInTwo(ads: seq<Addr>, wds: seq<Addr>, a: Announced, desired: set<Addr>, f: Faults,
                  added: bool, mid: set<Addr>, removed: bool, adv: set<Addr>)
    requires Advertised(ads, {}, desired, a.ips, f, mid, added)
    requires Withdrawn(wds, {}, desired, mid, f, adv, removed)
    ensures PassEvents(a, desired, f, AdEvents(ads, f) + WdEvents(wds, f))
    ensures adv == Pass(a, desired, f).ips
    ensures added && removed <==> PassOk(a, desired, f)
  {
    assert desired - {} == desired && mid - {} == mid;
    assert mid - desired == a.ips - desired;
    assert PassEventsAs(ads, wds, a, desired, f, AdEvents(ads, f) + WdEvents(wds, f));
  }

  // ---- Loops over mappings ----

  /** All entries of a map, in whatever order it is walked. */
  method Gather<K(==,!new)>(m: map<K, seq<Mapping>>) returns (all: seq<Mapping>, ghost ks: seq<K>)
    ensures Enumerates(ks, m.Keys) && all == Concat(m, ks)
  {
    all, ks := [], [];
    var todo := m.Keys;
    while todo != {}
      invariant todo <= m.Keys
      invariant Enumerates(ks, m.Keys - todo) && all == Concat(m, ks)
      decreases todo
    {
      ghost var w := Pick(todo);
      assert w in todo;
      var k :| k in todo;
      EnumeratesAdd(ks, m.Keys - todo, k);
      assert m.Keys - (todo - {k}) == m.Keys - todo + {k};
      todo := todo - {k};
      assert (ks + [k])[..|ks|] == ks;
      all, ks := all + m[k], ks + [k];
    }
    assert m.Keys - {} == m.Keys;
  }

  /** The mappings of each VMID, in the order they are listed. */
  method GroupByVMID(all: seq<Mapping>) returns (grouped: map<int, seq<Mapping>>)
    ensures forall v :: At(grouped, v) == OfVM(all, v)
  {
    grouped := map[];
    for i := 0 to |all|
      invariant forall v :: At(grouped, v) == OfVM(all[..i], v)
    {
      var m := all[i];
      assert all[..i + 1] == all[..i] + [m];
      forall v ensures OfVM(all[..i + 1], v) == OfVM(all[..i], v) + (if m.vmid == v then [m] else []) {
        OfVMAppend(all[..i], m, v);
      }
      grouped := grouped[m.vmid := (if m.vmid in grouped then grouped[m.vmid] else []) + [m]];
    }
    assert all[..|all|] == all;
  }

  method SortedCopy(ms: seq<Mapping>) returns (sorted: seq<Mapping>)
    ensures Sorted(sorted) && multiset(sorted) == multiset(ms)
  {
    var a := new Mapping[|ms|](i requires 0 <= i < |ms| => ms[i]);
    assert a[..] == ms;
    SortMappings(a);
    sorted := a[..];
  }

  /** The VMs that have had their turn. */
  ghost function Turns(active: seq<int>, i: nat): set<int>
    requires i <= |active|
  {
    set v | v in active[..i]
  }

  lemma TurnOf(active: seq<int>, i: nat)
    requires i < |active| && forall p, q | 0 <= p < q < |active| :: active[p] != active[q]
    ensures active[i] !in Turns(active, i) && active[i] in active
    ensures Turns(active, i) + {active[i]} == Turns(active, i + 1)
  {
    assert active[..i + 1] == active[..i] + [active[i]];
  }

  lemma AllTurns(active: seq<int>, s: set<int>)
    requires Enumerates(active, s)
    ensures Turns(active, |active|) == s
  {
    assert active[..|active|] == active;
  }

  lemma CachedExternals(c: Cache, all: seq<Mapping>)
    requires forall x :: x in all <==> Cached(c, x)
    ensures (set m | m in all :: m.external) ==
            Externals(c.byVMID) + (set n, x | n in c.pending && x in c.pending[n] :: x.external)
  {
    var ips := Externals(c.byVMID) + (set n, x | n in c.pending && x in c.pending[n] :: x.external);
    forall ip ensures ip in ips <==> ip in (set m | m in all :: m.external) {
      if ip in ips {
        var x :| Cached(c, x) && x.external == ip;
        assert x in all;
      }
    }
  }

  /** After adoption the managed set is not looked at any more. */
  lemma OnceAdopted(text: Addr -> string, c: Core, k: Kernel, applied: map<int, seq<Mapping>>, managed: set<Addr>,
                    claims: set<Addr>, f: Faults, es: seq<Event>)
    requires c.announced.synced || managed == claims
    requires ApplyEvents(text, c, k, applied, managed, f, es)
    ensures ApplyEvents(text, c, k, applied, claims, f, es)
    ensures CoreAfter(text, c, k, applied, claims, f) == CoreAfter(text, c, k, applied, managed, f)
  {
    var pass :| EventsAs(text, c, k, applied, managed, f, pass, es);
    assert Begun(c, k, claims, f) == Begun(c, k, managed, f);
    assert EventsAs(text, c, k, applied, claims, f, pass, es);
  }

  lemma ManagedIs(c: Cache, b: B.Store, cached: seq<Mapping>, backedUp: seq<Mapping>)
    requires IsListing(c, cached) && (set m | m in backedUp) == KnownMappings(b)
    ensures (set m | m in cached :: m.external) + (set m | m in backedUp :: m.external) == Managed(c, b)
  {
    forall x ensures x in cached <==> Cached(c, x) {
      ListingMembers(c, cached, x);
    }
    CachedExternals(c, cached);
    assert forall m :: m in backedUp <==> m in KnownMappings(b);
  }

  // ---- Deltas ----

  method BuildEntries(parse: Parser, outside: seq<string>, internal: Addr, v: int, name: string)
    returns (entries: seq<Mapping>)
    ensures entries == Entries(parse, outside, internal, v, name)
  {
    entries := [];
    for i := 0 to |outside|
      invariant entries + Entries(parse, outside[i..], internal, v, name) == Entries(parse, outside, internal, v, name)
    {
      var ext := parse(outside[i]);
      assert outside[i..][1..] == outside[i + 1..];
      if ext.Some? {
        entries := entries + [Mapping(ext.value, internal, v, name)];
      }
    }
  }

  /** The backed-up mappings the delta does not speak about, followed by those it brings. */
  method MergeDelta(parse: Parser, existing: seq<Mapping>, d: Delta, internal: Addr, v: int)
    returns (updated: seq<Mapping>)
    ensures updated == Nodes.Merged(parse, existing, d, internal, v)
  {
    updated := [];
    for i := 0 to |existing|
      invariant updated == Kept(parse, existing[..i], internal, d.outside)
    {
      var m := existing[i];
      assert existing[..i + 1][..i] == existing[..i];
      if m.internal != internal {
        var keep := true;
        var k := 0;
        while k < |d.outside| && keep
          invariant 0 <= k <= |d.outside|
          invariant keep <==> forall q | 0 <= q < k :: parse(d.outside[q]) != Some(m.external)
        {
          keep := parse(d.outside[k]) != Some(m.external);
          k := k + 1;
        }
        if keep {
          updated := updated + [m];
        }
      }
    }
    assert existing[..|existing|] == existing;
    if !IsDeleted(d) {
      var entries := BuildEntries(parse, d.outside, internal, v, d.name);
      updated := updated + entries;
    }
  }

  /** Where the two ways out of a backup sync leave the backups. */
  lemma SyncDone(parse: Parser, c: Cache, vms: P.VMs, b: B.Store, d: Delta, noRead: set<int>)
    requires SyncsIP(parse, vms, d, Target(c, d, d.name))
    ensures var v := Target(c, d, d.name);
            var l, r := B.LoadAll(b, {v}, noRead), B.LoadResultOf(b, v, noRead);
            var merged := Nodes.Merged(parse, FoundIn(r), d, parse(d.internal).value, v);
            SyncBackup(parse, c, vms, b, d, noRead) ==
            if r.Error? || (merged == [] && !r.Found?) then l else B.EnqueueAll(l, map[v := B.Payload(merged)])
  {
    var l := B.LoadAll(b, {Target(c, d, d.name)}, noRead);
    assert B.EnqueueAll(l, map[]).pending == l.pending;
  }

  lemma ForgetOneMore(c: Cache, v: int, todo: set<string>, n: string)
    requires n in todo && todo <= c.idByName.Keys
    ensures var gone, more := NamesOf(c, v) - todo, NamesOf(c, v) - (todo - {n});
            && more == (if c.idByName[n] == v then gone + {n} else gone)
            && n !in gone
            && c.idByName - (gone + {n}) == c.idByName - gone - {n}
            && c.pending - (gone + {n}) == c.pending - gone - {n}
  {
  }

  lemma ForgotVM(c: Cache, d: Delta)
    ensures var v := Target(c, d, d.name);
            var p := if v > 0 then c.pending - NamesOf(c, v) else c.pending;
            ForgetVM(c, d).pending == if d.name != "" then p - {d.name} else p
  {
  }

  lemma CyclePath(env: Env, n: Node, fetch: Option<seq<Mapping>>, now: int, t: Trouble, l: Node, es: seq<Event>,
                  m: Node)
    returns (p: Path)
    requires if fetch.None? then Step(env, n, Act.Apply(FetchFailed, [], t), es, m)
              else Step(env, n, RecordFetch(now), [], l) && Step(env, l, Act.Apply(Fetched, fetch.value, t), es, m)
    ensures Leads(env, n, p, m) && p.acts == CycleActs(fetch, now, t) && Log(p.ess) == es
  {
    if fetch.None? {
      p := LeadsOnce(env, n, Act.Apply(FetchFailed, [], t), es, m);
    } else {
      p := LeadsTwice(env, n, RecordFetch(now), [], l, Act.Apply(Fetched, fetch.value, t), es, m);
    }
  }

  lemma CutOverPath(env: Env, n: Node, v: int, name: string, status: P.Status, t: int, l: Node, a: Act,
                    es: seq<Event>, m: Node, tr: Trouble) returns (listing: seq<Mapping>, p: Path)
    requires l == n.(vms := P.SetStatus(n.vms, v, name, status, t)) && Step(env, l, a, es, m)
    requires if l.cache.ready then a.Apply? && a == Act.Apply(FastPath, a.all, tr) else a == Queue
    ensures Leads(env, n, p, m) && p.acts == [Place(v, name, status, t)] + FastActs(n.cache, listing, tr) &&
            Log(p.ess) == es
  {
    p := LeadsTwice(env, n, Place(v, name, status, t), [], l, a, es, m);
    listing := if l.cache.ready then a.all else [];
  }

  lemma PrimePath(env: Env, n: Node, scan: B.Scan, l: Node, seeded: bool, seed: seq<Mapping>, m: Node) returns (p: Path)
    requires l == n.(backup := B.Warm(n.backup, scan)) && m == if seeded then l.(cache := Rebuild(seed)) else l
    ensures Leads(env, n, p, m) && p.acts == [WarmBackup(scan)] + (if seeded then [SeedCache(seed)] else []) &&
            Log(p.ess) == []
  {
    if seeded {
      p := LeadsTwice(env, n, WarmBackup(scan), [], l, SeedCache(seed), [], m);
    } else {
      p := LeadsOnce(env, n, WarmBackup(scan), [], m);
    }
  }

  lemma SyncedPath(env: Env, n: Node, p: Path, l: Node, q: Path, m: Node, ev: CloudEvent, t: int,
                   first: seq<Mapping>, second: seq<Mapping>, t1: Trouble, t2: Trouble) returns (r: Path)
    requires Leads(env, n, p, l) && Leads(env, l, q, m)
    requires p.acts == TargetActs(env.self, n.cache, ev, t, first, t1) &&
             q.acts == SourceActs(env.self, n.cache, ev, t, second, t2)
    ensures Leads(env, n, r, m) && r.acts == SyncedActs(env.self, n.cache, ev, t, first, second, t1, t2)
    ensures Log(r.ess) == Log(p.ess) + Log(q.ess)
  {
    r := LeadsBoth(env, n, p, l, q, m);
  }

  lemma DequeuedPath(env: Env, n: Node, l: Node, q: Path, m: Node) returns (r: Path)
    requires l == n.(queued := false) && Leads(env, l, q, m)
    ensures Leads(env, n, r, m) && r.acts == [Dequeue] + q.acts && Log(r.ess) == Log(q.ess)
  {
    var p := LeadsOnce(env, n, Dequeue, [], l);
    r := LeadsBoth(env, n, p, l, q, m);
  }
}
