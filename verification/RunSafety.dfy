/** Safety of the kernel over whole runs of one node, with any failures along the way. */
module RunSafety {
  import opened Net
  import opened Options
  import P = Placement
  import opened MappingCache
  import opened Kernels
  import opened Apply
  import opened ApplySteps
  import opened Nodes

  /** What an apply at step i programs. */
  ghost function Programmed(env: Env, n: Node, a: Act): map<int, seq<Mapping>>
    requires a.Apply?
  {
    Applied(JobOf(env, n, a.origin, a.all, a.trouble))
  }

  ghost predicate Fails(env: Env, n: Node, a: Act)
    requires a.Apply?
  {
    Failed(env.text, n.core, Programmed(env, n, a), a.trouble.kernel)
  }

  /** The announcements a pass starts from, including what it adopts. */
  ghost function PassStart(n: Node, a: Act, m: Node): Announced {
    if a.Apply? then Begun(n.core, n.kernel, Managed(m.cache, m.backup), a.trouble.kernel) else n.core.announced
  }

  ghost function Wanted(env: Env, n: Node, a: Act): set<Addr> {
    if a.Apply? then Externals(Programmed(env, n, a)) else {}
  }

  /** In every run, each apply that reports success leaves the ruleset an unconditional nft apply would. */
  lemma EverySuccessInstalls(env: Env, ns: seq<Node>, acts: seq<Act>, ess: seq<seq<Event>>, i: nat)
    requires GoodText(env.text) && Steps(env, ns, acts, ess) && Boot(ns[0])
    requires i < |acts| && acts[i].Apply? && !Fails(env, ns[i], acts[i])
    ensures ns[i + 1].kernel.rules == Ruleset(Programmed(env, ns[i], acts[i]))
  {
    BootInv(env, ns[0]);
    RunInv(env, ns, acts, ess, i);
    InstallsAt(env, ns[i], acts[i], ess[i], ns[i + 1]);
  }

  lemma InstallsAt(env: Env, n: Node, a: Act, es: seq<Event>, m: Node)
    requires GoodText(env.text) && Inv(env, n) && Step(env, n, a, es, m)
    requires a.Apply? && !Fails(env, n, a)
    ensures m.kernel.rules == Ruleset(Programmed(env, n, a)) && m.core.lastApplied == Programmed(env, n, a)
  {
    SkipRefines(env.text, n.core, n.kernel, Programmed(env, n, a), Managed(m.cache, m.backup), a.trouble.kernel,
                es, m.core, m.kernel);
  }

  /**
   In every run, after an apply that reports success a rule is installed exactly if some
   programmed mapping translates its external address to its internal one, and as many times.
   */
  lemma EveryRuleTranslates(env: Env, ns: seq<Node>, acts: seq<Act>, ess: seq<seq<Event>>, i: nat, ks: seq<int>,
                            p: Pair)
    requires GoodText(env.text) && Steps(env, ns, acts, ess) && Boot(ns[0])
    requires i < |acts| && acts[i].Apply? && !Fails(env, ns[i], acts[i])
    requires Enumerates(ks, Programmed(env, ns[i], acts[i]).Keys)
    ensures p in ns[i + 1].kernel.rules <==>
            Translates(Programmed(env, ns[i], acts[i]), p.external, p.internal)
    ensures multiset(ns[i + 1].kernel.rules)[p] ==
            Uses(Concat(Programmed(env, ns[i], acts[i]), ks), p.external, p.internal)
  {
    EverySuccessInstalls(env, ns, acts, ess, i);
    RulesetTranslates(Programmed(env, ns[i], acts[i]), p);
    RulesetCounts(Programmed(env, ns[i], acts[i]), ks, p);
  }

  /** Some VM's mapping leads from external to internal. */
  predicate Translates(applied: map<int, seq<Mapping>>, external: Addr, internal: Addr) {
    exists v, x :: v in applied && x in applied[v] && x.external == external && x.internal == internal
  }

  /**
   An apply runs nft at most once, and not at all exactly if the last run of this process
   succeeded and the kernel already has the rules; it errs exactly if nft ran and failed.
   */
  lemma NftRunsIf(env: Env, n: Node, a: Act, es: seq<Event>, m: Node)
    requires GoodText(env.text) && Inv(env, n) && Step(env, n, a, es, m) && a.Apply?
    ensures (forall k | 0 <= k < |es| :: !es[k].NftApply?) <==>
            n.core.keyValid && n.kernel.rules == Ruleset(Programmed(env, n, a))
    ensures forall k, l | 0 <= k < |es| && 0 <= l < |es| :: es[k].NftApply? && es[l].NftApply? ==> k == l
    ensures Fails(env, n, a) <==> exists k :: 0 <= k < |es| && es[k].NftApply? && !es[k].ok
    ensures forall k | 0 <= k < |es| :: es[k].NftApply? ==> m.core.keyValid == es[k].ok
    ensures (forall k | 0 <= k < |es| :: !es[k].NftApply?) ==> m.core.keyValid == n.core.keyValid
  {
    var applied, managed, f := Programmed(env, n, a), Managed(m.cache, m.backup), a.trouble.kernel;
    RulesetKeyInjective(env.text, n.kernel.rules, Ruleset(applied));
    NftInApply(env.text, n.core, n.kernel, applied, managed, f, es);
  }

  /** In every run, whenever an address is put on the loopback its DNAT rule is already installed. */
  lemma EveryAdvertiseHasItsRule(env: Env, ns: seq<Node>, acts: seq<Act>, ess: seq<seq<Event>>, i: nat, k: nat)
    requires GoodText(env.text) && Steps(env, ns, acts, ess) && Boot(ns[0])
    requires i < |acts| && k < |ess[i]| && ess[i][k].Advertise?
    ensures HasRule(Replay(ns[i].kernel, ess[i][..k]).rules, ess[i][k].ip)
  {
    BootInv(env, ns[0]);
    RunInv(env, ns, acts, ess, i);
    AdvertisesAt(env, ns[i], acts[i], ess[i], ns[i + 1], k);
  }

  lemma AdvertisesAt(env: Env, n: Node, a: Act, es: seq<Event>, m: Node, k: nat)
    requires GoodText(env.text) && Inv(env, n) && Step(env, n, a, es, m)
    requires k < |es| && es[k].Advertise?
    ensures HasRule(Replay(n.kernel, es[..k]).rules, es[k].ip)
  {
    if a.Apply? {
      AdvertiseAfterRule(env.text, n.core, n.kernel, Programmed(env, n, a), Managed(m.cache, m.backup),
                         a.trouble.kernel, es, k);
    } else if a.FlushRoutes? {
      PassEventKinds(n.core.announced, {}, a.f, es, k);
    }
  }

  lemma StepReplays(env: Env, n: Node, a: Act, es: seq<Event>, m: Node)
    requires Step(env, n, a, es, m)
    ensures m.kernel == Replay(n.kernel, es)
  {
  }

  lemma ReplayNext(env: Env, ns: seq<Node>, acts: seq<Act>, ess: seq<seq<Event>>, k: nat)
    requires Steps(env, ns, acts, ess) && k < |acts|
    requires ns[k].kernel == Replay(ns[0].kernel, Log(ess[..k]))
    ensures ns[k + 1].kernel == Replay(ns[0].kernel, Log(ess[..k + 1]))
  {
    StepReplays(env, ns[k], acts[k], ess[k], ns[k + 1]);
    assert ess[..k + 1][..k] == ess[..k];
    ReplayAppend(ns[0].kernel, Log(ess[..k]), ess[k]);
  }

  /** The kernel only ever changes through the operations in the log: replaying them gives every state of a run. */
  lemma {:induction false} KernelIsReplayed(env: Env, ns: seq<Node>, acts: seq<Act>, ess: seq<seq<Event>>, k: nat)
    requires Steps(env, ns, acts, ess) && k <= |acts|
    ensures ns[k].kernel == Replay(ns[0].kernel, Log(ess[..k]))
  {
    if k > 0 {
      KernelIsReplayed(env, ns, acts, ess, k - 1);
      ReplayNext(env, ns, acts, ess, k - 1);
    }
  }

  /** In every run, an apply without errors leaves announced exactly what it programmed for VMs that are active. */
  lemma EverySuccessScopes(env: Env, ns: seq<Node>, acts: seq<Act>, ess: seq<seq<Event>>, i: nat)
    requires GoodText(env.text) && Steps(env, ns, acts, ess) && Boot(ns[0])
    requires i < |acts| && acts[i].Apply? && !Fails(env, ns[i], acts[i])
    requires PassOk(PassStart(ns[i], acts[i], ns[i + 1]), Wanted(env, ns[i], acts[i]), acts[i].trouble.kernel)
    ensures ns[i + 1].core.announced.ips == Externals(Programmed(env, ns[i], acts[i])) <= ns[i + 1].kernel.lo
    ensures Programmed(env, ns[i], acts[i]).Keys <= P.WithStatus(ns[i + 1].vms, P.Active)
    ensures forall ip | ip in ns[i].core.announced.ips ::
              ip in ns[i + 1].kernel.lo <==> ip in Externals(Programmed(env, ns[i], acts[i]))
  {
    BootInv(env, ns[0]);
    RunInv(env, ns, acts, ess, i);
    ScopesAt(env, ns[i], acts[i], ess[i], ns[i + 1]);
  }

  lemma ScopesAt(env: Env, n: Node, a: Act, es: seq<Event>, m: Node)
    requires GoodText(env.text) && Inv(env, n) && Step(env, n, a, es, m)
    requires a.Apply? && !Fails(env, n, a)
    requires PassOk(PassStart(n, a, m), Wanted(env, n, a), a.trouble.kernel)
    ensures m.core.announced.ips == Externals(Programmed(env, n, a)) <= m.kernel.lo
    ensures Programmed(env, n, a).Keys <= P.WithStatus(m.vms, P.Active)
    ensures forall ip | ip in n.core.announced.ips :: ip in m.kernel.lo <==> ip in Externals(Programmed(env, n, a))
  {
    ExactScoping(env.text, n.core, n.kernel, Programmed(env, n, a), Managed(m.cache, m.backup), a.trouble.kernel,
                 es, m.core, m.kernel);
  }

  // ---- Addresses this service has no claim to ----

  /** A step lays claim to what it wants announced and to what it adopts. */
  ghost predicate Claims(env: Env, n: Node, a: Act, m: Node, ip: Addr) {
    ip in Wanted(env, n, a) || (ip in PassStart(n, a, m).ips && ip !in n.core.announced.ips)
  }

  lemma UnclaimedStep(env: Env, n: Node, a: Act, es: seq<Event>, m: Node, ip: Addr)
    requires Step(env, n, a, es, m)
    requires ip in n.kernel.lo && ip !in n.core.announced.ips && !Claims(env, n, a, m, ip)
    ensures ip in m.kernel.lo && ip !in m.core.announced.ips
    ensures forall k | 0 <= k < |es| :: es[k].Withdraw? ==> es[k].ip != ip
  {
    if a.Apply? {
      assert es[..|es|] == es;
      NeverLeaves(env.text, n.core, n.kernel, Programmed(env, n, a), Managed(m.cache, m.backup), a.trouble.kernel,
                  es, |es|, ip);
    } else if a.FlushRoutes? {
      forall k | 0 <= k < |es| ensures es[k].Withdraw? ==> es[k].ip != ip {
        PassEventKinds(n.core.announced, {}, a.f, es, k);
      }
      NeverWithdrawn(n.kernel, es, ip);
    }
  }

  ghost predicate NeverClaimed(env: Env, ns: seq<Node>, acts: seq<Act>, ip: Addr)
    requires |ns| == |acts| + 1
  {
    forall j, k | 0 <= j < k < |ns| && k == j + 1 :: !Claims(env, ns[j], acts[j], ns[k], ip)
  }

  ghost predicate NotWithdrawn(es: seq<Event>, ip: Addr) {
    forall k | 0 <= k < |es| :: es[k].Withdraw? ==> es[k].ip != ip
  }

  predicate Standing(n: Node, ip: Addr) {
    ip in n.kernel.lo && ip !in n.core.announced.ips
  }

  lemma ForeignNext(env: Env, ns: seq<Node>, acts: seq<Act>, ess: seq<seq<Event>>, ip: Addr, i: nat)
    requires Steps(env, ns, acts, ess) && NeverClaimed(env, ns, acts, ip)
    requires i < |acts| && Standing(ns[i], ip)
    ensures Standing(ns[i + 1], ip) && NotWithdrawn(ess[i], ip)
  {
    UnclaimedStep(env, ns[i], acts[i], ess[i], ns[i + 1], ip);
  }

  /** An address never wanted and never adopted stays on the loopback, untouched, through any run. */
  lemma {:induction false} ForeignIsSafe(env: Env, ns: seq<Node>, acts: seq<Act>, ess: seq<seq<Event>>, ip: Addr,
                                         i: nat)
    requires Steps(env, ns, acts, ess) && NeverClaimed(env, ns, acts, ip)
    requires i <= |acts| && Boot(ns[0]) && ip in ns[0].kernel.lo
    ensures Standing(ns[i], ip)
    ensures forall j | 0 <= j < i :: NotWithdrawn(ess[j], ip)
  {
    if i > 0 {
      ForeignIsSafe(env, ns, acts, ess, ip, i - 1);
      ForeignNext(env, ns, acts, ess, ip, i - 1);
    }
  }

  /** A step claims only what it wants and, once per process, managed addresses found on the loopback. */
  lemma ClaimsAreManaged(env: Env, n: Node, a: Act, m: Node, ip: Addr)
    requires Claims(env, n, a, m, ip)
    ensures ip in Wanted(env, n, a) ||
            (!n.core.announced.synced && ip in n.kernel.lo && ip in Managed(m.cache, m.backup))
  {
  }

  /** The node programs the address, or knows it from its cache or a backup. */
  ghost predicate Handles(env: Env, n: Node, a: Act, m: Node, ip: Addr) {
    ip in Wanted(env, n, a) || ip in Managed(m.cache, m.backup)
  }

  ghost predicate NeverHandled(env: Env, ns: seq<Node>, acts: seq<Act>, ip: Addr)
    requires |ns| == |acts| + 1
  {
    forall j, k | 0 <= j < k < |ns| && k == j + 1 :: !Handles(env, ns[j], acts[j], ns[k], ip)
  }

  lemma NeverHandledNeverClaimed(env: Env, ns: seq<Node>, acts: seq<Act>, ip: Addr)
    requires |ns| == |acts| + 1 && NeverHandled(env, ns, acts, ip)
    ensures NeverClaimed(env, ns, acts, ip)
  {
    forall j, k | 0 <= j < k < |ns| && k == j + 1 ensures !Claims(env, ns[j], acts[j], ns[k], ip) {
      assert !Handles(env, ns[j], acts[j], ns[k], ip);
      if Claims(env, ns[j], acts[j], ns[k], ip) {
        ClaimsAreManaged(env, ns[j], acts[j], ns[k], ip);
      }
    }
  }

  /** So an address in no mapping the node ever programs, caches or backs up is safe. */
  lemma UnknownIsSafe(env: Env, ns: seq<Node>, acts: seq<Act>, ess: seq<seq<Event>>, ip: Addr, i: nat)
    requires Steps(env, ns, acts, ess) && NeverHandled(env, ns, acts, ip)
    requires i <= |acts| && Boot(ns[0]) && ip in ns[0].kernel.lo
    ensures Standing(ns[i], ip)
    ensures forall j | 0 <= j < i :: NotWithdrawn(ess[j], ip)
  {
    NeverHandledNeverClaimed(env, ns, acts, ip);
    ForeignIsSafe(env, ns, acts, ess, ip, i);
  }

  /** An address announced and still wanted is on the loopback at every moment of the step. */
  lemma StillWantedStays(env: Env, n: Node, a: Act, es: seq<Event>, m: Node, k: nat, ip: Addr)
    requires Inv(env, n) && Step(env, n, a, es, m) && k <= |es|
    requires ip in n.core.announced.ips && ip in Wanted(env, n, a)
    ensures ip in Replay(n.kernel, es[..k]).lo
  {
    NeverLeaves(env.text, n.core, n.kernel, Programmed(env, n, a), Managed(m.cache, m.backup), a.trouble.kernel,
                es, k, ip);
  }

  /** Shutting down withdraws all and only what this process announced, unless a withdrawal fails. */
  lemma ShutdownWithdraws(env: Env, n: Node, f: Faults, es: seq<Event>, m: Node)
    requires Inv(env, n) && Step(env, n, FlushRoutes(f), es, m)
    ensures m.kernel.lo == n.kernel.lo - (n.core.announced.ips - f.noWithdraw)
    ensures m.core.announced.ips == n.core.announced.ips * f.noWithdraw
  {
    WithdrawsAll(n.kernel, n.core.announced, f, es);
  }

  lemma WithdrawsAll(k: Kernel, a: Announced, f: Faults, es: seq<Event>)
    requires PassEvents(a, {}, f, es)
    ensures Replay(k, es).lo == k.lo - (a.ips - f.noWithdraw)
    ensures Pass(a, {}, f).ips == a.ips * f.noWithdraw
  {
    PassInKernel(k, a, {}, f, es);
  }

  /** An apply that adds no announcement withdraws before it touches the ruleset. */
  lemma TeardownOrder(env: Env, n: Node, a: Act, es: seq<Event>, m: Node, i: nat, j: nat)
    requires Step(env, n, a, es, m) && Wanted(env, n, a) <= n.core.announced.ips
    requires i < |es| && es[i].Withdraw? && j < |es| && es[j].NftApply?
    ensures i < j
  {
    if a.Apply? {
      WithdrawBeforeTeardown(env.text, n.core, n.kernel, Programmed(env, n, a), Managed(m.cache, m.backup),
                             a.trouble.kernel, es, i, j);
    } else if a.FlushRoutes? {
      PassOnly(n.core.announced, {}, a.f, es);
    }
  }
}
