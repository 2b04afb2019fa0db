/**
 An apply as a step of this process and the kernel: the fingerprint that skips nft, the
 order of nft and the announcements, and what each failure leaves behind.
 */
module ApplySteps {
  import opened Options
  import opened Net
  import opened Kernels
  import opened Apply

  /** The reconciler's own record of the last applies. */
  datatype Core = Core(lastApplied: map<int, seq<Mapping>>, lastKey: string, keyValid: bool, announced: Announced)

  ghost predicate Unchanged(text: Addr -> string, c: Core, applied: map<int, seq<Mapping>>) {
    c.keyValid && RulesetKey(text, Ruleset(applied)) == c.lastKey
  }

  /** The apply returns an error: nft had to run and failed. */
  ghost predicate Failed(text: Addr -> string, c: Core, applied: map<int, seq<Mapping>>, f: Faults) {
    !Unchanged(text, c, applied) && f.nft.Some?
  }

  /** Announcements go first when no rule needs installing or nothing new is announced. */
  ghost predicate BgpFirst(text: Addr -> string, c: Core, applied: map<int, seq<Mapping>>) {
    Unchanged(text, c, applied) || Externals(applied) <= c.announced.ips
  }

  ghost function NftEvents(text: Addr -> string, c: Core, applied: map<int, seq<Mapping>>, f: Faults): seq<Event> {
    if Unchanged(text, c, applied) then []
    else [NftApply(if f.nft.Some? then f.nft.value else Ruleset(applied), f.nft.None?)]
  }

  /** The announcements when the pass begins. */
  ghost function Begun(c: Core, k: Kernel, managed: set<Addr>, f: Faults): Announced {
    Adopt(c.announced, k.lo, managed, f)
  }

  /** The kernel operations of one apply, in order; pass is how the announcing pass went if it ran. */
  ghost predicate EventsAs(text: Addr -> string, c: Core, k: Kernel, applied: map<int, seq<Mapping>>,
                           managed: set<Addr>, f: Faults, pass: seq<Event>, es: seq<Event>) {
    && PassEvents(Begun(c, k, managed, f), Externals(applied), f, pass)
    && es == if BgpFirst(text, c, applied) then pass + NftEvents(text, c, applied, f)
             else NftEvents(text, c, applied, f) + (if Failed(text, c, applied, f) then [] else pass)
  }

  ghost predicate ApplyEvents(text: Addr -> string, c: Core, k: Kernel, applied: map<int, seq<Mapping>>,
                              managed: set<Addr>, f: Faults, es: seq<Event>) {
    exists pass :: EventsAs(text, c, k, applied, managed, f, pass, es)
  }

  ghost predicate PassRuns(text: Addr -> string, c: Core, applied: map<int, seq<Mapping>>, f: Faults) {
    BgpFirst(text, c, applied) || !Failed(text, c, applied, f)
  }

  ghost function CoreAfter(text: Addr -> string, c: Core, k: Kernel, applied: map<int, seq<Mapping>>,
                           managed: set<Addr>, f: Faults): Core {
    var failed, same := Failed(text, c, applied, f), Unchanged(text, c, applied);
    Core(if failed then c.lastApplied else applied,
         if failed || same then c.lastKey else RulesetKey(text, Ruleset(applied)),
         !failed,
         if PassRuns(text, c, applied, f) then Pass(Begun(c, k, managed, f), Externals(applied), f) else c.announced)
  }

  ghost predicate ApplyStep(text: Addr -> string, c: Core, k: Kernel, applied: map<int, seq<Mapping>>,
                            managed: set<Addr>, f: Faults, es: seq<Event>, c': Core, k': Kernel) {
    && ApplyEvents(text, c, k, applied, managed, f, es)
    && c' == CoreAfter(text, c, k, applied, managed, f)
    && k' == Replay(k, es)
  }

  /** An apply assembled from its two halves. */
  lemma HalvesMakeApply(text: Addr -> string, c: Core, k: Kernel, applied: map<int, seq<Mapping>>, managed: set<Addr>,
                        f: Faults, pass: seq<Event>)
    requires PassRuns(text, c, applied, f) ==> PassEvents(Begun(c, k, managed, f), Externals(applied), f, pass)
    ensures var nft := NftEvents(text, c, applied, f);
            ApplyEvents(text, c, k, applied, managed, f,
                        if BgpFirst(text, c, applied) then pass + nft
                        else if Failed(text, c, applied, f) then nft else nft + pass)
  {
    var a, desired, nft := Begun(c, k, managed, f), Externals(applied), NftEvents(text, c, applied, f);
    if PassRuns(text, c, applied, f) {
      var es := if BgpFirst(text, c, applied) then pass + nft else nft + pass;
      assert EventsAs(text, c, k, applied, managed, f, pass, es);
    } else {
      var ads, wds := Enumeration(desired - a.ips), Enumeration(a.ips - desired);
      var other := AdEvents(ads, f) + WdEvents(wds, f);
      assert PassEventsAs(ads, wds, a, desired, f, other);
      assert nft + [] == nft;
      assert EventsAs(text, c, k, applied, managed, f, other, nft);
    }
  }

  // ---- Invariants ----

  /** A valid key is the key of what the kernel holds. */
  ghost predicate KeyInv(text: Addr -> string, c: Core, k: Kernel) {
    c.keyValid ==> c.lastKey == RulesetKey(text, k.rules)
  }

  /** What this process announces is on the loopback. */
  predicate AnnouncedInv(c: Core, k: Kernel) {
    c.announced.ips <= k.lo
  }

  lemma UnchangedMeansInstalled(text: Addr -> string, c: Core, k: Kernel, applied: map<int, seq<Mapping>>)
    requires GoodText(text) && KeyInv(text, c, k)
    ensures Unchanged(text, c, applied) ==> k.rules == Ruleset(applied)
  {
    RulesetKeyInjective(text, k.rules, Ruleset(applied));
  }

  lemma {:induction false} PassLeavesRules(k: Kernel, es: seq<Event>)
    requires forall i | 0 <= i < |es| :: !es[i].NftApply?
    ensures Replay(k, es).rules == k.rules
  {
    if es != [] {
      PassLeavesRules(k, es[..|es| - 1]);
    }
  }

  lemma PassOnly(a: Announced, desired: set<Addr>, f: Faults, es: seq<Event>)
    requires PassEvents(a, desired, f, es)
    ensures forall i | 0 <= i < |es| :: !es[i].NftApply?
  {
    forall i | 0 <= i < |es| ensures !es[i].NftApply? {
      PassEventKinds(a, desired, f, es, i);
    }
  }

  lemma NftReplay(k: Kernel, text: Addr -> string, c: Core, applied: map<int, seq<Mapping>>, f: Faults)
    ensures Replay(k, NftEvents(text, c, applied, f)) ==
            Kernel(if Unchanged(text, c, applied) then k.rules
                   else if f.nft.Some? then f.nft.value else Ruleset(applied), k.lo)
  {
    var es := NftEvents(text, c, applied, f);
    assert es != [] ==> es[..0] == [];
  }

  /** Where an apply leaves the kernel, whichever half ran first. */
  lemma KernelAfter(text: Addr -> string, c: Core, k: Kernel, applied: map<int, seq<Mapping>>, managed: set<Addr>,
                    f: Faults, es: seq<Event>)
    requires ApplyEvents(text, c, k, applied, managed, f, es)
    ensures var a, desired := Begun(c, k, managed, f), Externals(applied);
            Replay(k, es) == Kernel(
              if Unchanged(text, c, applied) then k.rules else if f.nft.Some? then f.nft.value else Ruleset(applied),
              if PassRuns(text, c, applied, f)
              then k.lo + (desired - a.ips - f.noAdvertise) - (a.ips - desired - f.noWithdraw) else k.lo)
  {
    var pass :| EventsAs(text, c, k, applied, managed, f, pass, es);
    var nft, a, desired := NftEvents(text, c, applied, f), Begun(c, k, managed, f), Externals(applied);
    if BgpFirst(text, c, applied) {
      ReplayAppend(k, pass, nft);
      PassInKernel(k, a, desired, f, pass);
      NftReplay(Replay(k, pass), text, c, applied, f);
    } else {
      NftReplay(k, text, c, applied, f);
      if Failed(text, c, applied, f) {
        assert nft + [] == nft;
      } else {
        ReplayAppend(k, nft, pass);
        PassInKernel(Replay(k, nft), a, desired, f, pass);
      }
    }
  }

  /** An apply that returns no error leaves exactly the ruleset an unconditional nft apply would install. */
  lemma SkipRefines(text: Addr -> string, c: Core, k: Kernel, applied: map<int, seq<Mapping>>, managed: set<Addr>,
                    f: Faults, es: seq<Event>, c': Core, k': Kernel)
    requires GoodText(text) && KeyInv(text, c, k)
    requires ApplyStep(text, c, k, applied, managed, f, es, c', k')
    ensures KeyInv(text, c', k')
    ensures !Failed(text, c, applied, f) ==> k'.rules == Ruleset(applied) && c'.lastApplied == applied
  {
    KernelAfter(text, c, k, applied, managed, f, es);
    UnchangedMeansInstalled(text, c, k, applied);
  }

  lemma AnnouncedKept(text: Addr -> string, c: Core, k: Kernel, applied: map<int, seq<Mapping>>, managed: set<Addr>,
                      f: Faults, es: seq<Event>, c': Core, k': Kernel)
    requires AnnouncedInv(c, k)
    requires ApplyStep(text, c, k, applied, managed, f, es, c', k')
    ensures AnnouncedInv(c', k')
  {
    KernelAfter(text, c, k, applied, managed, f, es);
  }

  /** After an apply without any error, exactly the programmed addresses are announced. */
  lemma ExactScoping(text: Addr -> string, c: Core, k: Kernel, applied: map<int, seq<Mapping>>, managed: set<Addr>,
                     f: Faults, es: seq<Event>, c': Core, k': Kernel)
    requires AnnouncedInv(c, k)
    requires ApplyStep(text, c, k, applied, managed, f, es, c', k')
    requires !Failed(text, c, applied, f) && PassOk(Begun(c, k, managed, f), Externals(applied), f)
    ensures c'.announced.ips == Externals(applied) <= k'.lo
    ensures forall ip | ip in c.announced.ips :: ip in k'.lo <==> ip in Externals(applied)
  {
    KernelAfter(text, c, k, applied, managed, f, es);
    assert Pass(Begun(c, k, managed, f), Externals(applied), f).ips == Externals(applied);
  }

  // ---- Every moment of an apply ----

  lemma PrefixOfSum<T>(a: seq<T>, b: seq<T>, i: nat)
    requires i < |a| + |b|
    ensures i < |a| ==> (a + b)[i] == a[i] && (a + b)[..i] == a[..i]
    ensures i >= |a| ==> (a + b)[i] == b[i - |a|] && (a + b)[..i] == a + b[..i - |a|]
  {
  }

  /** Announcing first, an address goes up only while the rules are already in place. */
  lemma RulesStand(text: Addr -> string, c: Core, k: Kernel, applied: map<int, seq<Mapping>>, managed: set<Addr>,
                   f: Faults, pass: seq<Event>, i: nat)
    requires GoodText(text) && KeyInv(text, c, k) && BgpFirst(text, c, applied)
    requires PassEvents(Begun(c, k, managed, f), Externals(applied), f, pass) && i < |pass| && pass[i].Advertise?
    ensures Replay(k, pass[..i]).rules == Ruleset(applied) && pass[i].ip in Externals(applied)
  {
    PassOnly(Begun(c, k, managed, f), Externals(applied), f, pass);
    PassEventKinds(Begun(c, k, managed, f), Externals(applied), f, pass, i);
    PassLeavesRules(k, pass[..i]);
    UnchangedMeansInstalled(text, c, k, applied);
  }

  /** Installing first, it goes up only after nft has succeeded. */
  lemma RulesInstalled(text: Addr -> string, c: Core, k: Kernel, applied: map<int, seq<Mapping>>, managed: set<Addr>,
                       f: Faults, pass: seq<Event>, i: nat)
    requires !Unchanged(text, c, applied) && !Failed(text, c, applied, f)
    requires PassEvents(Begun(c, k, managed, f), Externals(applied), f, pass) && i < |pass| && pass[i].Advertise?
    ensures Replay(k, NftEvents(text, c, applied, f) + pass[..i]).rules == Ruleset(applied) &&
            pass[i].ip in Externals(applied)
  {
    var nft := NftEvents(text, c, applied, f);
    PassOnly(Begun(c, k, managed, f), Externals(applied), f, pass);
    PassEventKinds(Begun(c, k, managed, f), Externals(applied), f, pass, i);
    ReplayAppend(k, nft, pass[..i]);
    NftReplay(k, text, c, applied, f);
    PassLeavesRules(Replay(k, nft), pass[..i]);
  }

  lemma RulesBefore(text: Addr -> string, c: Core, k: Kernel, applied: map<int, seq<Mapping>>, managed: set<Addr>,
                    f: Faults, pass: seq<Event>, es: seq<Event>, i: nat)
    requires GoodText(text) && KeyInv(text, c, k)
    requires EventsAs(text, c, k, applied, managed, f, pass, es)
    requires i < |es| && es[i].Advertise?
    ensures Replay(k, es[..i]).rules == Ruleset(applied) && es[i].ip in Externals(applied)
  {
    var nft := NftEvents(text, c, applied, f);
    if BgpFirst(text, c, applied) {
      PrefixOfSum(pass, nft, i);
      RulesStand(text, c, k, applied, managed, f, pass, i);
    } else {
      PrefixOfSum(nft, if Failed(text, c, applied, f) then [] else pass, i);
      RulesInstalled(text, c, k, applied, managed, f, pass, i - |nft|);
    }
  }

  /** No address is put on the loopback before its DNAT rule is installed. */
  lemma AdvertiseAfterRule(text: Addr -> string, c: Core, k: Kernel, applied: map<int, seq<Mapping>>,
                           managed: set<Addr>, f: Faults, es: seq<Event>, i: nat)
    requires GoodText(text) && KeyInv(text, c, k)
    requires ApplyEvents(text, c, k, applied, managed, f, es)
    requires i < |es| && es[i].Advertise?
    ensures HasRule(Replay(k, es[..i]).rules, es[i].ip)
  {
    var pass :| EventsAs(text, c, k, applied, managed, f, pass, es);
    RulesBefore(text, c, k, applied, managed, f, pass, es, i);
    RulesetHas(applied, es[i].ip);
  }

  /** A pure teardown withdraws before it touches the ruleset. */
  lemma WithdrawBeforeTeardown(text: Addr -> string, c: Core, k: Kernel, applied: map<int, seq<Mapping>>,
                               managed: set<Addr>, f: Faults, es: seq<Event>, i: nat, j: nat)
    requires ApplyEvents(text, c, k, applied, managed, f, es)
    requires Externals(applied) <= c.announced.ips
    requires i < |es| && es[i].Withdraw? && j < |es| && es[j].NftApply?
    ensures i < j
  {
    var pass :| EventsAs(text, c, k, applied, managed, f, pass, es);
    PassOnly(Begun(c, k, managed, f), Externals(applied), f, pass);
  }

  lemma ApplyEventKinds(text: Addr -> string, c: Core, k: Kernel, applied: map<int, seq<Mapping>>, managed: set<Addr>,
                        f: Faults, es: seq<Event>, i: nat)
    requires ApplyEvents(text, c, k, applied, managed, f, es) && i < |es|
    ensures es[i].Advertise? ==> es[i].ip in Externals(applied)
    ensures es[i].Withdraw? ==> es[i].ip in Begun(c, k, managed, f).ips && es[i].ip !in Externals(applied)
  {
    var pass :| EventsAs(text, c, k, applied, managed, f, pass, es);
    if !es[i].NftApply? {
      var at := InPass(text, c, k, applied, managed, f, pass, es, i);
      PassEventKinds(Begun(c, k, managed, f), Externals(applied), f, pass, at);
    }
  }

  /** Every operation of an apply that is not the nft run is one of its pass. */
  lemma InPass(text: Addr -> string, c: Core, k: Kernel, applied: map<int, seq<Mapping>>, managed: set<Addr>,
               f: Faults, pass: seq<Event>, es: seq<Event>, i: nat) returns (at: nat)
    requires EventsAs(text, c, k, applied, managed, f, pass, es) && i < |es| && !es[i].NftApply?
    ensures at < |pass| && pass[at] == es[i]
  {
    var nft := NftEvents(text, c, applied, f);
    if BgpFirst(text, c, applied) {
      PrefixOfSum(pass, nft, i);
      at := i;
    } else {
      PrefixOfSum(nft, if Failed(text, c, applied, f) then [] else pass, i);
      at := i - |nft|;
    }
  }

  /** What stays desired, and what is not this process's to touch, never leaves the loopback meanwhile. */
  lemma NeverLeaves(text: Addr -> string, c: Core, k: Kernel, applied: map<int, seq<Mapping>>, managed: set<Addr>,
                    f: Faults, es: seq<Event>, i: nat, ip: Addr)
    requires ApplyEvents(text, c, k, applied, managed, f, es) && i <= |es|
    requires ip in k.lo
    requires ip in Externals(applied) || ip !in Begun(c, k, managed, f).ips
    ensures ip in Replay(k, es[..i]).lo
    ensures forall j | 0 <= j < |es| :: es[j].Withdraw? ==> es[j].ip != ip
  {
    forall j | 0 <= j < |es| ensures es[j].Withdraw? ==> es[j].ip != ip {
      ApplyEventKinds(text, c, k, applied, managed, f, es, j);
    }
    NeverWithdrawn(k, es[..i], ip);
  }

  /** The one nft run of an apply, or none. */
  lemma NftInApply(text: Addr -> string, c: Core, k: Kernel, applied: map<int, seq<Mapping>>, managed: set<Addr>,
                   f: Faults, es: seq<Event>)
    requires ApplyEvents(text, c, k, applied, managed, f, es)
    ensures (forall i | 0 <= i < |es| :: !es[i].NftApply?) <==> Unchanged(text, c, applied)
    ensures forall i, j | 0 <= i < |es| && 0 <= j < |es| :: es[i].NftApply? && es[j].NftApply? ==> i == j
    ensures forall i | 0 <= i < |es| :: es[i].NftApply? ==> es[i].ok == f.nft.None?
  {
    var pass :| EventsAs(text, c, k, applied, managed, f, pass, es);
    var nft := NftEvents(text, c, applied, f);
    PassOnly(Begun(c, k, managed, f), Externals(applied), f, pass);
    if !Unchanged(text, c, applied) {
      var at := if BgpFirst(text, c, applied) then |pass| else 0;
      assert es[at] == nft[0];
    }
  }

  // ---- Repetition ----

  /** Once applied without an nft error, the same mappings need no nft run. */
  lemma SuccessMakesUnchanged(text: Addr -> string, c: Core, k: Kernel, applied: map<int, seq<Mapping>>,
                              managed: set<Addr>, f: Faults, es: seq<Event>, c': Core, k': Kernel)
    requires ApplyStep(text, c, k, applied, managed, f, es, c', k') && !Failed(text, c, applied, f)
    ensures Unchanged(text, c', applied)
    ensures PassOk(Begun(c, k, managed, f), Externals(applied), f) ==> c'.announced.ips == Externals(applied)
  {
    if PassOk(Begun(c, k, managed, f), Externals(applied), f) {
      assert Pass(Begun(c, k, managed, f), Externals(applied), f).ips == Externals(applied);
    }
  }

  lemma EmptyPass(a: Announced, desired: set<Addr>, f: Faults, es: seq<Event>)
    requires PassEvents(a, desired, f, es) && a.ips == desired
    ensures es == [] && Pass(a, desired, f) == a
  {
    if es != [] {
      PassEventKinds(a, desired, f, es, 0);
    }
  }

  /** An apply of unchanged mappings leaves nft alone, and does nothing when all is announced already. */
  lemma QuietApply(text: Addr -> string, c: Core, k: Kernel, applied: map<int, seq<Mapping>>, managed: set<Addr>,
                   f: Faults, es: seq<Event>, c': Core, k': Kernel)
    requires ApplyStep(text, c, k, applied, managed, f, es, c', k') && Unchanged(text, c, applied)
    ensures forall i | 0 <= i < |es| :: !es[i].NftApply?
    ensures k'.rules == k.rules
    ensures c.announced.ips == Externals(applied) && c.announced.synced ==>
              es == [] && k' == k && c'.announced == c.announced
  {
    var pass :| EventsAs(text, c, k, applied, managed, f, pass, es);
    assert es == pass;
    PassOnly(Begun(c, k, managed, f), Externals(applied), f, pass);
    PassLeavesRules(k, pass);
    if c.announced.ips == Externals(applied) && c.announced.synced {
      EmptyPass(Begun(c, k, managed, f), Externals(applied), f, pass);
    }
  }
}
