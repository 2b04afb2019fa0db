/**
 Addresses a previous process has left on the loopback: which of them a node takes over as
 its own, and what an apply without errors makes of the loopback as a whole.
 */
module Adoption {
  import opened Options
  import opened Net
  import B = Backup
  import BackupStores
  import P = Placement
  import opened MappingCache
  import opened Kernels
  import opened Apply
  import opened ApplySteps
  import opened Nodes
  import opened RunSafety
  import opened Retention
  import opened Outcomes

  /** Some mapping with this external address is cached under a VMID or a name, or is in a backup in memory. */
  ghost predicate Knows(n: Node, ip: Addr) {
    || (exists v, x :: v in n.cache.byVMID && x in n.cache.byVMID[v] && x.external == ip)
    || (exists name, x :: name in n.cache.pending && x in n.cache.pending[name] && x.external == ip)
    || (exists v, x :: v in n.backup.known && x in Usable(n.backup, v) && x.external == ip)
  }

  lemma ManagedIsKnown(n: Node, ip: Addr)
    ensures ip in Managed(n.cache, n.backup) <==> Knows(n, ip)
  {
    BackedUpIsKnown(n.backup, ip);
  }

  lemma BackedUpIsKnown(b: B.Store, ip: Addr)
    ensures (exists x :: x in BackupStores.KnownMappings(b) && x.external == ip) <==>
            exists v, x :: v in b.known && x in Usable(b, v) && x.external == ip
  {
    if v, x :| v in b.known && x in Usable(b, v) && x.external == ip {
      assert B.DecodeOpt(B.View(b, v)).Found?;
      assert x in BackupStores.KnownMappings(b);
    }
    if x :| x in BackupStores.KnownMappings(b) && x.external == ip {
      var v :| v in b.known && B.DecodeOpt(B.View(b, v)).Found? && x in B.DecodeOpt(B.View(b, v)).mappings;
      assert x in Usable(b, v);
    }
  }

  /** The addresses of the mappings an apply programs. */
  ghost predicate Announces(applied: map<int, seq<Mapping>>, ip: Addr) {
    exists v, x :: v in applied && x in applied[v] && x.external == ip
  }

  /** The comparison with the kernel is still to come, something is known to compare, and the kernel can be listed. */
  ghost predicate ComparesNow(n: Node, a: Act, m: Node) {
    a.Apply? && !n.core.announced.synced && !a.trouble.kernel.noList && exists ip :: Knows(m, ip)
  }

  /** No nft or ip operation fails. */
  predicate NothingFails(a: Act) {
    a.Apply? && a.trouble.kernel.nft.None? && a.trouble.kernel.noAdvertise == {} && a.trouble.kernel.noWithdraw == {}
  }

  lemma ComparesIsAdopts(n: Node, a: Act, m: Node)
    requires a.Apply?
    ensures ComparesNow(n, a, m) <==> Adopts(n.core.announced, Managed(m.cache, m.backup), a.trouble.kernel)
  {
    if ip :| Knows(m, ip) {
      ManagedIsKnown(m, ip);
    }
    if Managed(m.cache, m.backup) != {} {
      ManagedIsKnown(m, Pick(Managed(m.cache, m.backup)));
    }
  }

  /** Whose addresses this process answers for once the pass begins. */
  lemma StartIs(n: Node, a: Act, m: Node, ip: Addr)
    requires a.Apply?
    ensures ip in PassStart(n, a, m).ips <==>
            ip in n.core.announced.ips || (ComparesNow(n, a, m) && ip in n.kernel.lo && Knows(m, ip))
    ensures PassStart(n, a, m).synced <==> n.core.announced.synced || ComparesNow(n, a, m)
  {
    ComparesIsAdopts(n, a, m);
    ManagedIsKnown(m, ip);
  }

  lemma WantedIs(env: Env, n: Node, a: Act, ip: Addr)
    requires a.Apply?
    ensures ip in Wanted(env, n, a) <==> Announces(Programmed(env, n, a), ip)
  {
  }

  /** The loopback after an apply in which nothing failed, in terms of where the pass began. */
  lemma LoopbackFrom(env: Env, n: Node, a: Act, es: seq<Event>, m: Node)
    requires Step(env, n, a, es, m) && NothingFails(a)
    ensures var start, wanted := PassStart(n, a, m), Wanted(env, n, a);
            && m.kernel.lo == n.kernel.lo + (wanted - start.ips) - (start.ips - wanted)
            && m.core.announced.ips == wanted && m.core.announced.synced == start.synced
  {
    KernelAfter(env.text, n.core, n.kernel, Programmed(env, n, a), Managed(m.cache, m.backup), a.trouble.kernel, es);
    var start, wanted := PassStart(n, a, m), Wanted(env, n, a);
    assert start.ips + wanted - (start.ips - wanted) == wanted;
    assert forall s: set<Addr> :: s - {} == s;
  }

  /**
   After an apply in which nothing failed an address is up exactly if it is programmed, or
   if it was up before, is not one this process announced and, where this apply compares
   with the kernel, is in no mapping the node knows.
   */
  lemma LoopbackAfter(env: Env, n: Node, a: Act, es: seq<Event>, m: Node, ip: Addr)
    requires AnnouncedInv(n.core, n.kernel) && Step(env, n, a, es, m) && NothingFails(a)
    ensures ip in m.kernel.lo <==>
            || Announces(Programmed(env, n, a), ip)
            || (ip in n.kernel.lo && ip !in n.core.announced.ips && !(ComparesNow(n, a, m) && Knows(m, ip)))
    ensures ip in m.core.announced.ips <==> Announces(Programmed(env, n, a), ip)
    ensures m.core.announced.synced <==> n.core.announced.synced || ComparesNow(n, a, m)
  {
    LoopbackFrom(env, n, a, es, m);
    StartIs(n, a, m, ip);
    WantedIs(env, n, a, ip);
  }

  /**
   So in every run the first comparison with the kernel, if nothing fails, removes what a
   previous process has left: of the addresses in known mappings exactly the programmed
   ones are up. A comparison that could not be made is made by a later apply.
   */
  lemma LeftoversGo(env: Env, ns: seq<Node>, acts: seq<Act>, ess: seq<seq<Event>>, i: nat, ip: Addr)
    requires GoodText(env.text) && Steps(env, ns, acts, ess) && Boot(ns[0])
    requires i < |acts| && NothingFails(acts[i]) && ComparesNow(ns[i], acts[i], ns[i + 1])
    requires Knows(ns[i + 1], ip)
    ensures ip in ns[i + 1].kernel.lo <==> Announces(Programmed(env, ns[i], acts[i]), ip)
  {
    BootInv(env, ns[0]);
    RunInv(env, ns, acts, ess, i);
    LeftoverGoes(env, ns[i], acts[i], ess[i], ns[i + 1], ip);
  }

  lemma LeftoverGoes(env: Env, n: Node, a: Act, es: seq<Event>, m: Node, ip: Addr)
    requires Inv(env, n) && Step(env, n, a, es, m) && NothingFails(a) && ComparesNow(n, a, m) && Knows(m, ip)
    ensures ip in m.kernel.lo <==> Announces(Programmed(env, n, a), ip)
  {
    LoopbackAfter(env, n, a, es, m, ip);
  }
}
