/**
 What one apply gives a VM and leaves in its backup, case by case, in terms of what the
 apply is handed and of what is on record; and the grace of an unlisted VM from the first
 fetch that misses it to the one apply that serves it.
 */
module Outcomes {
  import opened Options
  import opened Net
  import B = Backup
  import P = Placement
  import opened MappingCache
  import opened Kernels
  import opened Apply
  import opened ApplySteps
  import opened Nodes
  import opened RunSafety
  import opened Retention

  /** A load of v's backup is answered from memory, or its file can be read. */
  predicate CanRead(b: B.Store, v: int, noRead: set<int>) {
    v !in noRead || v in b.pending || v in b.known || b.scanned
  }

  /**
   A delta speaks for everything cached. A fetch, or the cache of one, is to be believed
   when it brings anything at all or there is no VM here it could have brought anything for.
   */
  ghost predicate Credible(a: Act, m: Node) {
    && a.Apply?
    && (a.origin.Hook? || (!a.origin.FetchFailed? && (a.all != [] || forall u :: !IsActive(m.vms, u))))
  }

  /** v is here, the apply is handed nothing for it, and its backup has something to give. */
  ghost predicate FallsToBackup(n: Node, a: Act, m: Node, v: int) {
    && a.Apply? && !a.origin.Hook? && IsActive(m.vms, v) && OfVM(a.all, v) == []
    && CanRead(n.backup, v, a.trouble.noRead) && Usable(n.backup, v) != []
  }

  lemma NobodyHere(vms: P.VMs)
    ensures P.WithStatus(vms, P.Active) == {} <==> forall u :: !IsActive(vms, u)
  {
    if u :| IsActive(vms, u) {
      assert u in P.WithStatus(vms, P.Active);
    }
    if P.WithStatus(vms, P.Active) != {} {
      var u := Pick(P.WithStatus(vms, P.Active));
      assert IsActive(vms, u);
    }
  }

  lemma PreparedIs(env: Env, n: Node, a: Act, es: seq<Event>, m: Node)
    requires Step(env, n, a, es, m) && a.Apply?
    ensures m.vms == PreparedVms(n, a.origin)
  {
  }

  lemma BelievedIsCredible(env: Env, n: Node, a: Act, es: seq<Event>, m: Node)
    requires Step(env, n, a, es, m) && a.Apply?
    ensures BelievedAt(env, n, a) <==> Credible(a, m)
  {
    PreparedIs(env, n, a, es, m);
    NobodyHere(m.vms);
  }

  lemma LoadGivesAll(b: B.Store, v: int, noRead: set<int>)
    ensures FoundIn(B.LoadResultOf(b, v, noRead)) == if CanRead(b, v, noRead) then Usable(b, v) else []
  {
  }

  /** The cases of one job. */
  lemma JobPrograms(j: Job, v: int)
    ensures v in Applied(j) ==> v in j.active && Applied(j)[v] != []
    ensures v in j.active && OfVM(j.all, v) != [] ==> v in Applied(j) && Applied(j)[v] == OfVM(j.all, v)
    ensures OfVM(j.all, v) == [] && j.source == WebhookDelta ==> v !in Applied(j)
    ensures v in j.active && OfVM(j.all, v) == [] && j.source != WebhookDelta ==>
              At(Applied(j), v) ==
              if CanRead(j.backup, v, j.noRead) && Usable(j.backup, v) != [] then Usable(j.backup, v)
              else if Believed(j) then [] else At(j.last, v)
  {
    LoadGivesAll(j.backup, v, j.noRead);
  }

  /**
   An active VM gets exactly what the apply is handed for it. Handed nothing, it gets
   nothing from a delta and exactly its backup otherwise; and with no backup to give, nothing
   if the apply is to be believed and what was programmed last if it is not.
   */
  lemma WhatIsProgrammed(env: Env, n: Node, a: Act, es: seq<Event>, m: Node, v: int)
    requires Step(env, n, a, es, m) && a.Apply?
    ensures v in Programmed(env, n, a) ==> IsActive(m.vms, v) && Programmed(env, n, a)[v] != []
    ensures IsActive(m.vms, v) && OfVM(a.all, v) != [] ==> At(Programmed(env, n, a), v) == OfVM(a.all, v)
    ensures OfVM(a.all, v) == [] && a.origin.Hook? ==> v !in Programmed(env, n, a)
    ensures FallsToBackup(n, a, m, v) ==> At(Programmed(env, n, a), v) == Usable(n.backup, v)
    ensures IsActive(m.vms, v) && OfVM(a.all, v) == [] && !a.origin.Hook? && !FallsToBackup(n, a, m, v) ==>
              At(Programmed(env, n, a), v) == if Credible(a, m) then [] else At(n.core.lastApplied, v)
  {
    BelievedIsCredible(env, n, a, es, m);
    JobPrograms(JobOf(env, n, a.origin, a.all, a.trouble), v);
  }

  /** Deltas aside, an apply replaces the backup of a listed VM, spends that of a VM in grace, and keeps all others. */
  lemma WhatIsBackedUp(env: Env, n: Node, a: Act, es: seq<Event>, m: Node, v: int)
    requires Step(env, n, a, es, m) && a.Apply? && !a.origin.Hook?
    ensures Usable(m.backup, v) ==
            if n.backup.closed || !IsActive(m.vms, v) then Usable(n.backup, v)
            else if OfVM(a.all, v) != [] then OfVM(a.all, v)
            else if Credible(a, m) && FallsToBackup(n, a, m, v) then [] else Usable(n.backup, v)
  {
    BelievedIsCredible(env, n, a, es, m);
    var j := JobOf(env, n, a.origin, a.all, a.trouble);
    LoadGivesAll(j.backup, v, j.noRead);
    AfterApply(j, v);
  }

  // ---- Grace ----

  /** A credible apply that misses a VM with a backup serves it with the whole backup. */
  lemma GraceServesWhole(env: Env, n: Node, a: Act, es: seq<Event>, m: Node, v: int)
    requires Step(env, n, a, es, m) && Credible(a, m) && FallsToBackup(n, a, m, v)
    ensures v in Programmed(env, n, a) && Programmed(env, n, a)[v] == Usable(n.backup, v)
    ensures GraceAt(env, n, a, v)
    ensures !Fails(env, n, a) ==> v in m.core.lastApplied && m.core.lastApplied[v] == Usable(n.backup, v)
  {
    WhatIsProgrammed(env, n, a, es, m, v);
    BelievedIsCredible(env, n, a, es, m);
    LastAppliedAfter(env, n, a, es, m);
  }

  /** Its rules are then installed, each with its own internal address. */
  lemma GraceInstalls(env: Env, n: Node, a: Act, es: seq<Event>, m: Node, v: int, x: Mapping)
    requires GoodText(env.text) && Inv(env, n) && Step(env, n, a, es, m) && a.Apply? && !Fails(env, n, a)
    requires Credible(a, m) && FallsToBackup(n, a, m, v) && x in Usable(n.backup, v)
    ensures Pair(x.external, x.internal) in m.kernel.rules
  {
    GraceServesWhole(env, n, a, es, m, v);
    InstallsAt(env, n, a, es, m);
    RulesetTranslates(Programmed(env, n, a), Pair(x.external, x.internal));
  }

  /** A step that leaves the grace of v open: nothing is handed for v, no delta comes, nothing credible meets v here. */
  ghost predicate Waits(a: Act, m: Node, v: int) {
    Silent(a, v) && (a.Apply? ==> !a.origin.Hook? && (Credible(a, m) ==> !IsActive(m.vms, v)))
  }

  lemma WaitingStep(env: Env, n: Node, a: Act, es: seq<Event>, m: Node, v: int)
    requires B.CacheTrue(n.backup) && Step(env, n, a, es, m) && Waits(a, m, v) && Tracked(n.backup, v)
    ensures Tracked(m.backup, v) && Usable(m.backup, v) == Usable(n.backup, v)
  {
    match a
    case Apply(o, all, t) =>
      WhatIsBackedUp(env, n, a, es, m, v);
      TrackedAfterApply(JobOf(env, n, o, all, t), v);
    case WarmBackup(scan) => AfterWarm(n.backup, scan, v);
    case FlushBackup(fails) => AfterFlush(n.backup, fails, v);
    case CloseBackup(fails) => AfterFlush(n.backup, fails, v);
    case _ =>
  }

  ghost predicate AllWait(ns: seq<Node>, acts: seq<Act>, from: nat, to: nat, v: int)
    requires |ns| == |acts| + 1
  {
    forall x, y {:trigger Waits(acts[x], ns[y], v)} | from <= x < to && x < |acts| && y == x + 1 ::
      Waits(acts[x], ns[y], v)
  }

  lemma WaitingNext(env: Env, ns: seq<Node>, acts: seq<Act>, ess: seq<seq<Event>>, i: nat, k: nat, v: int)
    requires GoodText(env.text) && Steps(env, ns, acts, ess) && Inv(env, ns[0])
    requires i <= k < |acts| && AllWait(ns, acts, i, k + 1, v)
    requires Tracked(ns[k].backup, v)
    ensures Tracked(ns[k + 1].backup, v) && Usable(ns[k + 1].backup, v) == Usable(ns[k].backup, v)
  {
    RunInv(env, ns, acts, ess, k);
    WaitingStep(env, ns[k], acts[k], ess[k], ns[k + 1], v);
  }

  lemma {:induction false} WaitingThrough(env: Env, ns: seq<Node>, acts: seq<Act>, ess: seq<seq<Event>>, i: nat, k: nat,
                                          v: int)
    requires GoodText(env.text) && Steps(env, ns, acts, ess) && Inv(env, ns[0])
    requires i <= k <= |acts| && AllWait(ns, acts, i, k, v)
    requires Tracked(ns[i].backup, v)
    ensures Tracked(ns[k].backup, v) && Usable(ns[k].backup, v) == Usable(ns[i].backup, v)
  {
    if i < k {
      WaitingThrough(env, ns, acts, ess, i, k - 1, v);
      WaitingNext(env, ns, acts, ess, i, k - 1, v);
    }
  }

  lemma GraceAtIndex(env: Env, ns: seq<Node>, acts: seq<Act>, ess: seq<seq<Event>>, i: nat, v: int)
    requires Steps(env, ns, acts, ess) && i < |acts|
    requires Credible(acts[i], ns[i + 1]) && FallsToBackup(ns[i], acts[i], ns[i + 1], v)
    ensures GraceAt(env, ns[i], acts[i], v) && Programmed(env, ns[i], acts[i])[v] == Usable(ns[i].backup, v)
  {
    GraceServesWhole(env, ns[i], acts[i], ess[i], ns[i + 1], v);
  }

  /**
   Of all applies of a run that miss a VM with a tracked backup, exactly one serves it as
   a grace, the first credible one to meet it here, and that one serves the backup whole,
   as it was when the VM was first missed (at j); after it no credible apply programs the VM.
   */
  lemma ExactlyOneGrace(env: Env, ns: seq<Node>, acts: seq<Act>, ess: seq<seq<Event>>, j: nat, i: nat, k: nat, v: int)
    requires GoodText(env.text) && Steps(env, ns, acts, ess) && Inv(env, ns[0])
    requires j <= i < k < |acts| && AllSilent(acts, j, k + 1, v)
    requires AllWait(ns, acts, j, i, v) && Tracked(ns[j].backup, v) && Usable(ns[j].backup, v) != []
    requires Credible(acts[i], ns[i + 1]) && !acts[i].origin.Hook? && IsActive(ns[i + 1].vms, v)
    requires !ns[i].backup.closed
    ensures GraceAt(env, ns[i], acts[i], v) && Programmed(env, ns[i], acts[i])[v] == Usable(ns[j].backup, v)
    ensures !GraceAt(env, ns[k], acts[k], v)
  {
    WaitingThrough(env, ns, acts, ess, j, i, v);
    assert Silent(acts[i], v);
    GraceAtIndex(env, ns, acts, ess, i, v);
    OneGraceApply(env, ns, acts, ess, i, k, v);
  }
}
