/**
 The kernel as this service sees it, the operations it performs there, and the pass that
 converges the announced addresses. Which operations fail is given by a Faults value.
 */
module Kernels {
  import opened Options
  import opened Net

  /** The managed nftables table and the /32 addresses on the loopback interface. */
  datatype Kernel = Kernel(rules: seq<Pair>, lo: set<Addr>)

  /** One operation and its outcome. A failed nft run may leave any ruleset behind. */
  datatype Event =
    | NftApply(rules: seq<Pair>, ok: bool)
    | Advertise(ip: Addr, ok: bool)
    | Withdraw(ip: Addr, ok: bool)

  function Perform(k: Kernel, e: Event): Kernel {
    match e
    case NftApply(rules, _) => Kernel(rules, k.lo)
    case Advertise(ip, ok) => Kernel(k.rules, if ok then k.lo + {ip} else k.lo)
    case Withdraw(ip, ok) => Kernel(k.rules, if ok then k.lo - {ip} else k.lo)
  }

  function Replay(k: Kernel, es: seq<Event>): Kernel {
    if es == [] then k else Perform(Replay(k, es[..|es| - 1]), es[|es| - 1])
  }

  lemma {:induction false} ReplayAppend(k: Kernel, a: seq<Event>, b: seq<Event>)
    ensures Replay(k, a + b) == Replay(Replay(k, a), b)
  {
    if b == [] {
      assert a + b == a;
    } else {
      ReplayAppend(k, a, b[..|b| - 1]);
      assert (a + b)[..|a + b| - 1] == a + b[..|b| - 1];
    }
  }

  lemma ReplayOne(k: Kernel, es: seq<Event>, e: Event)
    ensures Replay(k, es + [e]) == Perform(Replay(k, es), e)
  {
    assert (es + [e])[..|es|] == es;
  }

  datatype Faults = Faults(nft: Option<seq<Pair>>, noAdvertise: set<Addr>, noWithdraw: set<Addr>, noList: bool)

  /** What this process believes it announces, and whether it has compared that with the kernel. */
  datatype Announced = Announced(ips: set<Addr>, synced: bool)

  // ---- One pass ----

  /** Adoption happens once, only of managed addresses, and only if the kernel can be listed. */
  predicate Adopts(a: Announced, managed: set<Addr>, f: Faults) {
    !a.synced && managed != {} && !f.noList
  }

  function Adopt(a: Announced, lo: set<Addr>, managed: set<Addr>, f: Faults): Announced {
    Announced(a.ips + (if Adopts(a, managed, f) then lo * managed else {}), a.synced || Adopts(a, managed, f))
  }

  function Pass(a: Announced, desired: set<Addr>, f: Faults): Announced {
    Announced(a.ips + (desired - f.noAdvertise) - (a.ips - desired - f.noWithdraw), a.synced)
  }

  predicate PassOk(a: Announced, desired: set<Addr>, f: Faults) {
    (desired - a.ips) !! f.noAdvertise && (a.ips - desired) !! f.noWithdraw
  }

  function AdEvents(ips: seq<Addr>, f: Faults): (es: seq<Event>)
    ensures |es| == |ips| && forall i | 0 <= i < |ips| :: es[i] == Advertise(ips[i], ips[i] !in f.noAdvertise)
  {
    seq(|ips|, i requires 0 <= i < |ips| => Advertise(ips[i], ips[i] !in f.noAdvertise))
  }

  function WdEvents(ips: seq<Addr>, f: Faults): (es: seq<Event>)
    ensures |es| == |ips| && forall i | 0 <= i < |ips| :: es[i] == Withdraw(ips[i], ips[i] !in f.noWithdraw)
  {
    seq(|ips|, i requires 0 <= i < |ips| => Withdraw(ips[i], ips[i] !in f.noWithdraw))
  }

  /** Additions first, then removals; each in whatever order the maps are walked. */
  ghost predicate PassEventsAs(ads: seq<Addr>, wds: seq<Addr>, a: Announced, desired: set<Addr>, f: Faults,
                               es: seq<Event>) {
    && Enumerates(ads, desired - a.ips)
    && Enumerates(wds, a.ips - desired)
    && es == AdEvents(ads, f) + WdEvents(wds, f)
  }

  ghost predicate PassEvents(a: Announced, desired: set<Addr>, f: Faults, es: seq<Event>) {
    exists ads, wds :: PassEventsAs(ads, wds, a, desired, f, es)
  }

  lemma {:induction false} ReplayAds(k: Kernel, ads: seq<Addr>, f: Faults)
    ensures Replay(k, AdEvents(ads, f)) == Kernel(k.rules, k.lo + ((set ip | ip in ads) - f.noAdvertise))
  {
    if ads != [] {
      var n := |ads| - 1;
      ReplayAds(k, ads[..n], f);
      assert AdEvents(ads, f)[..n] == AdEvents(ads[..n], f);
      assert (set ip | ip in ads) == (set ip | ip in ads[..n]) + {ads[n]} by {
        assert ads == ads[..n] + [ads[n]];
      }
    }
  }

  lemma {:induction false} ReplayWds(k: Kernel, wds: seq<Addr>, f: Faults)
    ensures Replay(k, WdEvents(wds, f)) == Kernel(k.rules, k.lo - ((set ip | ip in wds) - f.noWithdraw))
  {
    if wds != [] {
      var n := |wds| - 1;
      ReplayWds(k, wds[..n], f);
      assert WdEvents(wds, f)[..n] == WdEvents(wds[..n], f);
      assert (set ip | ip in wds) == (set ip | ip in wds[..n]) + {wds[n]} by {
        assert wds == wds[..n] + [wds[n]];
      }
    }
  }

  /** What a pass does to the kernel, in whatever order it runs. */
  lemma PassInKernel(k: Kernel, a: Announced, desired: set<Addr>, f: Faults, es: seq<Event>)
    requires PassEvents(a, desired, f, es)
    ensures Replay(k, es) ==
            Kernel(k.rules, k.lo + (desired - a.ips - f.noAdvertise) - (a.ips - desired - f.noWithdraw))
  {
    var ads, wds :| PassEventsAs(ads, wds, a, desired, f, es);
    ReplayAppend(k, AdEvents(ads, f), WdEvents(wds, f));
    ReplayAds(k, ads, f);
    ReplayWds(Replay(k, AdEvents(ads, f)), wds, f);
    assert (set ip | ip in ads) == desired - a.ips;
    assert (set ip | ip in wds) == a.ips - desired;
  }

  /** A pass keeps every announcement backed by the kernel, and one without errors reaches its goal. */
  lemma PassConverges(k: Kernel, a: Announced, desired: set<Addr>, f: Faults, es: seq<Event>)
    requires PassEvents(a, desired, f, es) && a.ips <= k.lo
    ensures Pass(a, desired, f).ips <= Replay(k, es).lo
    ensures PassOk(a, desired, f) <==> Pass(a, desired, f).ips == desired
  {
    PassInKernel(k, a, desired, f, es);
    if Pass(a, desired, f).ips == desired {
      forall ip | ip in desired - a.ips ensures ip !in f.noAdvertise {
        assert ip in Pass(a, desired, f).ips;
      }
      forall ip | ip in a.ips - desired ensures ip !in f.noWithdraw {
        assert ip !in Pass(a, desired, f).ips;
      }
    }
  }

  lemma PassEventKinds(a: Announced, desired: set<Addr>, f: Faults, es: seq<Event>, i: nat)
    requires PassEvents(a, desired, f, es) && i < |es|
    ensures es[i].Advertise? || es[i].Withdraw?
    ensures es[i].Advertise? ==> es[i].ip in desired && es[i].ip !in a.ips
    ensures es[i].Withdraw? ==> es[i].ip in a.ips && es[i].ip !in desired
  {
    var ads, wds :| PassEventsAs(ads, wds, a, desired, f, es);
    if i < |ads| {
      assert ads[i] in ads;
    } else {
      assert wds[i - |ads|] in wds;
    }
  }

  /** Events that never withdraw ip leave it on the loopback. */
  lemma {:induction false} NeverWithdrawn(k: Kernel, es: seq<Event>, ip: Addr)
    requires ip in k.lo
    requires forall i | 0 <= i < |es| :: es[i].Withdraw? ==> es[i].ip != ip
    ensures ip in Replay(k, es).lo
  {
    if es != [] {
      NeverWithdrawn(k, es[..|es| - 1], ip);
    }
  }

  // ---- The host ----

  /** The nft and ip commands, with a log of every operation and its outcome. */
  class Host {
    var rules: seq<Pair>
    var lo: set<Addr>
    var log: seq<Event>

    ghost function Abs(): Kernel
      reads this
    {
      Kernel(rules, lo)
    }

    constructor (rules: seq<Pair>, lo: set<Addr>)
      ensures Abs() == Kernel(rules, lo) && log == []
    {
      this.rules, this.lo, log := rules, lo, [];
    }

    method NftApply(ps: seq<Pair>, fails: Option<seq<Pair>>) returns (ok: bool)
      modifies this
      ensures ok <==> fails.None?
      ensures var e := Event.NftApply(if fails.Some? then fails.value else ps, fails.None?);
              log == old(log) + [e] && Abs() == Perform(old(Abs()), e)
    {
      ok := fails.None?;
      rules := if ok then ps else fails.value;
      log := log + [Event.NftApply(rules, ok)];
    }

    method Advertise(ip: Addr, f: Faults) returns (ok: bool)
      modifies this
      ensures ok <==> ip !in f.noAdvertise
      ensures var e := Event.Advertise(ip, ok); log == old(log) + [e] && Abs() == Perform(old(Abs()), e)
    {
      ok := ip !in f.noAdvertise;
      if ok {
        lo := lo + {ip};
      }
      log := log + [Event.Advertise(ip, ok)];
    }

    method Withdraw(ip: Addr, f: Faults) returns (ok: bool)
      modifies this
      ensures ok <==> ip !in f.noWithdraw
      ensures var e := Event.Withdraw(ip, ok); log == old(log) + [e] && Abs() == Perform(old(Abs()), e)
    {
      ok := ip !in f.noWithdraw;
      if ok {
        lo := lo - {ip};
      }
      log := log + [Event.Withdraw(ip, ok)];
    }
  }
}
