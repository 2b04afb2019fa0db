/** The fetch gate over whole runs: what a node remembers of its fetches, and when it skips one. */
module GateRuns {
  import opened Kernels
  import opened Nodes
  import G = FetchGate

  /** The fetches among the first k steps of a run. */
  ghost function History(ns: seq<Node>, acts: seq<Act>, k: nat): seq<G.Fetch>
    requires k <= |acts| <= |ns|
  {
    if k == 0 then []
    else
      var a := acts[k - 1];
      History(ns, acts, k - 1) +
      (if a.RecordFetch? then [G.Succeeded(a.now, G.Held(ns[k - 1].vms))]
       else if a.Apply? && a.origin.FetchFailed? then [G.FetchFailed] else [])
  }

  lemma GateStep(env: Env, n: Node, a: Act, es: seq<Event>, m: Node)
    requires Step(env, n, a, es, m)
    ensures m.gate == if a.RecordFetch? then G.Gate(a.now, G.KeyOf(G.Held(n.vms))) else n.gate
  {
  }

  lemma AfterOne(g: G.Gate, fs: seq<G.Fetch>, f: G.Fetch)
    ensures G.After(g, fs + [f]) == if f.FetchFailed? then G.After(g, fs) else G.Gate(f.now, G.KeyOf(f.held))
  {
    assert (fs + [f])[..|fs|] == fs;
  }

  /** After k steps the gate is what the fetches among them made of it. */
  ghost predicate GateTold(ns: seq<Node>, acts: seq<Act>, k: nat) {
    k <= |acts| < |ns| && ns[k].gate == G.After(G.NO_FETCH, History(ns, acts, k))
  }

  lemma GateNext(env: Env, ns: seq<Node>, acts: seq<Act>, ess: seq<seq<Event>>, k: nat)
    requires Steps(env, ns, acts, ess) && k < |acts|
    requires GateTold(ns, acts, k)
    ensures GateTold(ns, acts, k + 1)
  {
    GateStep(env, ns[k], acts[k], ess[k], ns[k + 1]);
    Remembered(ns, acts, k);
  }

  lemma Remembered(ns: seq<Node>, acts: seq<Act>, k: nat)
    requires k < |acts| <= |ns|
    ensures G.After(G.NO_FETCH, History(ns, acts, k + 1)) ==
            if acts[k].RecordFetch? then G.Gate(acts[k].now, G.KeyOf(G.Held(ns[k].vms)))
            else G.After(G.NO_FETCH, History(ns, acts, k))
  {
    var h := History(ns, acts, k);
    AfterOne(G.NO_FETCH, h, G.FetchFailed);
    if acts[k].RecordFetch? {
      AfterOne(G.NO_FETCH, h, G.Succeeded(acts[k].now, G.Held(ns[k].vms)));
    } else if !(acts[k].Apply? && acts[k].origin.FetchFailed?) {
      assert h + [] == h;
    }
  }

  lemma {:induction false} GateThrough(env: Env, ns: seq<Node>, acts: seq<Act>, ess: seq<seq<Event>>, k: nat)
    requires Steps(env, ns, acts, ess) && GateTold(ns, acts, 0) && k <= |acts|
    ensures GateTold(ns, acts, k)
  {
    if k > 0 {
      GateThrough(env, ns, acts, ess, k - 1);
      GateNext(env, ns, acts, ess, k - 1);
    }
  }

  /** Only fetches that succeed move the gate. */
  lemma GateRemembers(env: Env, ns: seq<Node>, acts: seq<Act>, ess: seq<seq<Event>>, k: nat)
    requires Steps(env, ns, acts, ess) && ns[0].gate == G.NO_FETCH && k <= |acts|
    ensures ns[k].gate == G.After(G.NO_FETCH, History(ns, acts, k))
  {
    assert GateTold(ns, acts, 0);
    GateThrough(env, ns, acts, ess, k);
  }

  /**
   In every run, a finished snapshot batch leads to no fetch exactly when the last fetch
   that succeeded is younger than the interval and saw exactly the VMs held now.
   */
  lemma SkipsOnlyWhenRedundant(env: Env, ns: seq<Node>, acts: seq<Act>, ess: seq<seq<Event>>, k: nat, interval: int,
                               now: int)
    requires Steps(env, ns, acts, ess) && Boot(ns[0]) && k <= |acts|
    requires 0 <= now && interval <= G.MAX_DURATION
    ensures var held, fs := G.Held(ns[k].vms), History(ns, acts, k);
            !G.ShouldFetch(ns[k].gate, G.KeyOf(held), interval, now) <==>
            interval > 0 && exists i :: G.LastSuccess(fs, i) && fs[i].held == held && now - fs[i].now < interval
  {
    GateRemembers(env, ns, acts, ess, k);
    G.GateSound(History(ns, acts, k), G.Held(ns[k].vms), interval, now);
  }
}
