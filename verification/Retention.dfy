/**
 What a VM keeps when NetBox has nothing for it: service through fetches that cannot be
 believed, one grace apply otherwise, and nothing at all after an explicit deletion.
 */
module Retention {
  import opened Options
  import opened Net
  import B = Backup
  import P = Placement
  import opened MappingCache
  import opened Kernels
  import opened Apply
  import opened ApplySteps
  import opened Nodes
  import opened RunSafety

  /** The mappings the backup of v would give back, if its read succeeds. */
  function Usable(b: B.Store, v: int): seq<Mapping> {
    FoundIn(B.DecodeOpt(B.View(b, v)))
  }

  /** The store answers for v from memory. */
  predicate Tracked(b: B.Store, v: int) {
    v in b.pending || v in b.known
  }

  // ---- How the backup of one VM moves ----

  lemma EqualBytesDecodeAlike(a: Option<B.Bytes>, b: Option<B.Bytes>)
    requires B.BytesEqual(a, b)
    ensures FoundIn(B.DecodeOpt(a)) == FoundIn(B.DecodeOpt(b))
  {
  }

  /** After a write is queued the backup gives back what was written, dropped as redundant or not. */
  lemma AfterEnqueue(b: B.Store, writes: map<int, Option<B.Bytes>>, v: int)
    ensures Usable(B.EnqueueAll(b, writes), v) ==
            if b.closed || v !in writes then Usable(b, v) else FoundIn(B.DecodeOpt(writes[v]))
    ensures !b.closed && v in writes ==> B.BytesEqual(B.View(B.EnqueueAll(b, writes), v), writes[v])
    ensures Tracked(b, v) || (!b.closed && v in writes) ==> Tracked(B.EnqueueAll(b, writes), v)
  {
    B.ViewEnqueue(b, writes, v);
    if !b.closed && v in writes && B.Suppressed(b, v, writes[v]) {
      assert B.BytesEqual(B.View(b, v), writes[v]);
      EqualBytesDecodeAlike(B.View(b, v), writes[v]);
    }
  }

  lemma LoadGivesUsable(b: B.Store, v: int, bad: set<int>)
    ensures FoundIn(B.LoadResultOf(b, v, bad)) == Usable(b, v) || FoundIn(B.LoadResultOf(b, v, bad)) == []
    ensures v !in bad ==> FoundIn(B.LoadResultOf(b, v, bad)) == Usable(b, v)
  {
  }

  lemma WritesAt(j: Job, v: int)
    ensures v in Writes(j) <==> v in j.active && DecisionFor(j, v).write != Leave
    ensures v in Writes(j) ==>
              FoundIn(B.DecodeOpt(Writes(j)[v])) == (if DecisionFor(j, v).write == Save then OfVM(j.all, v) else [])
    ensures v in Writes(j) && DecisionFor(j, v).write == Save ==>
              OfVM(j.all, v) != [] && Writes(j)[v] == Some(B.Encode(OfVM(j.all, v)))
    ensures v in Writes(j) && DecisionFor(j, v).write == Delete ==> Writes(j)[v] == None
  {
    if OfVM(j.all, v) != [] {
      B.EncodeRoundTrip(OfVM(j.all, v), OfVM(j.all, v));
    }
  }

  /** What one apply leaves in the backup of v. */
  lemma AfterApply(j: Job, v: int)
    ensures Usable(BackupAfter(j), v) ==
            if j.backup.closed || v !in j.active then Usable(j.backup, v)
            else match DecisionFor(j, v).write
                 case Leave => Usable(j.backup, v)
                 case Save => OfVM(j.all, v)
                 case Delete => []
    ensures !j.backup.closed && v in Writes(j) ==> B.BytesEqual(B.View(BackupAfter(j), v), Writes(j)[v])
  {
    B.ViewLoad(j.backup, Reads(j), j.noRead, v);
    AfterEnqueue(B.LoadAll(j.backup, Reads(j), j.noRead), Writes(j), v);
    WritesAt(j, v);
  }

  /** An apply that writes or finds a backup leaves it answered for from memory. */
  lemma TrackedAfterApply(j: Job, v: int)
    requires Tracked(j.backup, v) || (v in j.active &&
               ((!j.backup.closed && DecisionFor(j, v).write != Leave) ||
                (Consults(j, v) && FoundIn(B.LoadResultOf(j.backup, v, j.noRead)) != [])))
    ensures Tracked(BackupAfter(j), v)
  {
    var b := B.LoadAll(j.backup, Reads(j), j.noRead);
    AfterEnqueue(b, Writes(j), v);
  }

  lemma AfterWarm(b: B.Store, scan: B.Scan, v: int)
    requires B.CacheTrue(b) && Tracked(b, v)
    ensures Usable(B.Warm(b, scan), v) == Usable(b, v) && Tracked(B.Warm(b, scan), v)
  {
  }

  lemma AfterFlush(b: B.Store, fails: map<int, Option<B.Bytes>>, v: int)
    ensures Usable(B.Flush(b, fails), v) == Usable(b, v)
    ensures Tracked(b, v) ==> Tracked(B.Flush(b, fails), v)
    ensures Usable(B.Step(b, B.Close(fails)), v) == Usable(b, v)
    ensures Tracked(b, v) ==> Tracked(B.Step(b, B.Close(fails)), v)
  {
    B.ViewFlush(b, fails, v);
    B.ViewFlush(b.(closed := true), fails, v);
  }

  // ---- Grace ----

  /** Nothing is listed for v at this step. */
  predicate Silent(a: Act, v: int) {
    a.Apply? ==> OfVM(a.all, v) == []
  }

  predicate AllSilent(acts: seq<Act>, from: nat, to: nat, v: int) {
    forall x | from <= x < to && x < |acts| :: Silent(acts[x], v)
  }

  ghost predicate BelievedAt(env: Env, n: Node, a: Act)
    requires a.Apply?
  {
    Believed(JobOf(env, n, a.origin, a.all, a.trouble))
  }

  /** The backup of v is gone for good: it answers from memory, and with nothing. */
  predicate Gone(b: B.Store, v: int) {
    Tracked(b, v) && Usable(b, v) == []
  }

  lemma GoneAfterEnqueue(b: B.Store, writes: map<int, Option<B.Bytes>>, v: int)
    requires Gone(b, v) && (v in writes ==> writes[v] == None)
    ensures Gone(B.EnqueueAll(b, writes), v)
  {
    AfterEnqueue(b, writes, v);
  }

  /** A delta writes v's backup only to remove it, unless v is active and the store open. */
  lemma SyncKeepsGone(parse: Parser, c: Cache, vms: P.VMs, b: B.Store, d: Delta, noRead: set<int>, v: int)
    requires Gone(b, v)
    ensures Tracked(SyncBackup(parse, c, vms, b, d, noRead), v)
    ensures !IsActive(vms, v) || b.closed ==> Gone(SyncBackup(parse, c, vms, b, d, noRead), v)
    ensures SyncBackup(parse, c, vms, b, d, noRead).closed == b.closed
  {
    var u := Target(c, d, d.name);
    GoneAfterEnqueue(b, map[u := None], v);
    if SyncsIP(parse, vms, d, u) {
      var l, w := B.LoadAll(b, {u}, noRead), DeltaWrites(parse, d, u, B.LoadResultOf(b, u, noRead));
      B.ViewLoad(b, {u}, noRead, v);
      AfterEnqueue(l, w, v);
      if u != v || b.closed {
        assert Gone(l, v);
        if u != v { GoneAfterEnqueue(l, w, v); }
      }
    }
  }

  /** The apply of a delta that lists nothing for v leaves v without a backup. */
  lemma HookJobGone(j: Job, v: int)
    requires j.source == WebhookDelta && OfVM(j.all, v) == [] && Tracked(j.backup, v)
    requires v !in j.active || j.backup.closed ==> Gone(j.backup, v)
    ensures Gone(BackupAfter(j), v) && v !in Applied(j)
  {
    AfterApply(j, v);
    TrackedAfterApply(j, v);
  }

  lemma GoneAfterHook(env: Env, n: Node, a: Act, es: seq<Event>, m: Node, v: int)
    requires Step(env, n, a, es, m) && a.Apply? && a.origin.Hook? && Silent(a, v) && Gone(n.backup, v)
    ensures Gone(m.backup, v) && v !in Programmed(env, n, a)
  {
    var o := a.origin;
    var j := JobOf(env, n, o, a.all, a.trouble);
    SyncKeepsGone(env.parse, PreparedCache(env, n, o, a.all), PreparedVms(n, o), n.backup, o.d, o.noRead, v);
    HookJobGone(j, v);
  }

  lemma GoneAfterApply(env: Env, n: Node, a: Act, es: seq<Event>, m: Node, v: int)
    requires Step(env, n, a, es, m) && a.Apply? && !a.origin.Hook? && Silent(a, v) && Gone(n.backup, v)
    ensures Gone(m.backup, v)
    ensures BelievedAt(env, n, a) ==> v !in Programmed(env, n, a)
  {
    var j := JobOf(env, n, a.origin, a.all, a.trouble);
    AfterApply(j, v);
    TrackedAfterApply(j, v);
    LoadGivesUsable(j.backup, v, j.noRead);
  }

  lemma GoneStays(env: Env, n: Node, a: Act, es: seq<Event>, m: Node, v: int)
    requires B.CacheTrue(n.backup) && Step(env, n, a, es, m) && Silent(a, v)
    requires Gone(n.backup, v)
    ensures Gone(m.backup, v)
    ensures a.Apply? && BelievedAt(env, n, a) ==> v !in Programmed(env, n, a)
  {
    match a
    case Apply(o, all, t) =>
      if o.Hook? {
        GoneAfterHook(env, n, a, es, m, v);
      } else {
        GoneAfterApply(env, n, a, es, m, v);
      }
    case WarmBackup(scan) => AfterWarm(n.backup, scan, v);
    case FlushBackup(fails) => AfterFlush(n.backup, fails, v);
    case CloseBackup(fails) => AfterFlush(n.backup, fails, v);
    case _ =>
  }

  /** A believed apply that still programs an unlisted VM spends its backup. */
  lemma GraceSpends(env: Env, n: Node, a: Act, es: seq<Event>, m: Node, v: int)
    requires Step(env, n, a, es, m) && Silent(a, v) && a.Apply? && BelievedAt(env, n, a)
    requires v in Programmed(env, n, a) && !n.backup.closed
    ensures !a.origin.Hook? && Gone(m.backup, v)
  {
    var j := JobOf(env, n, a.origin, a.all, a.trouble);
    AfterApply(j, v);
    TrackedAfterApply(j, v);
  }

  lemma GoneNext(env: Env, ns: seq<Node>, acts: seq<Act>, ess: seq<seq<Event>>, i: nat, v: int)
    requires GoodText(env.text) && Steps(env, ns, acts, ess) && Inv(env, ns[0])
    requires i < |acts| && Silent(acts[i], v) && Gone(ns[i].backup, v)
    ensures Gone(ns[i + 1].backup, v)
    ensures acts[i].Apply? && BelievedAt(env, ns[i], acts[i]) ==> v !in Programmed(env, ns[i], acts[i])
  {
    RunInv(env, ns, acts, ess, i);
    GoneStays(env, ns[i], acts[i], ess[i], ns[i + 1], v);
  }

  lemma {:induction false} GoneThrough(env: Env, ns: seq<Node>, acts: seq<Act>, ess: seq<seq<Event>>, i: nat, k: nat,
                                       v: int)
    requires GoodText(env.text) && Steps(env, ns, acts, ess) && Inv(env, ns[0])
    requires i <= k < |ns| && Gone(ns[i].backup, v)
    requires AllSilent(acts, i, k, v)
    ensures Gone(ns[k].backup, v)
  {
    if i < k {
      GoneThrough(env, ns, acts, ess, i, k - 1, v);
      GoneNext(env, ns, acts, ess, k - 1, v);
    }
  }

  /** A believed apply that programs v. */
  ghost predicate GraceAt(env: Env, n: Node, a: Act, v: int) {
    a.Apply? && BelievedAt(env, n, a) && v in Programmed(env, n, a)
  }

  lemma GraceSpendsAt(env: Env, ns: seq<Node>, acts: seq<Act>, ess: seq<seq<Event>>, i: nat, v: int)
    requires Steps(env, ns, acts, ess) && i < |acts| && Silent(acts[i], v)
    requires GraceAt(env, ns[i], acts[i], v) && !ns[i].backup.closed
    ensures Gone(ns[i + 1].backup, v)
  {
    GraceSpends(env, ns[i], acts[i], ess[i], ns[i + 1], v);
  }

  lemma NoGraceAt(env: Env, ns: seq<Node>, acts: seq<Act>, ess: seq<seq<Event>>, i: nat, v: int)
    requires GoodText(env.text) && Steps(env, ns, acts, ess) && Inv(env, ns[0])
    requires i < |acts| && Silent(acts[i], v) && Gone(ns[i].backup, v)
    ensures !GraceAt(env, ns[i], acts[i], v)
  {
    GoneNext(env, ns, acts, ess, i, v);
  }

  /**
   While a VM stays unlisted, two believed applies never both program it, whatever else
   happens between them: fetches, cutovers, deltas, flushes that fail, and so on.
   */
  lemma OneGraceApply(env: Env, ns: seq<Node>, acts: seq<Act>, ess: seq<seq<Event>>, i: nat, k: nat, v: int)
    requires GoodText(env.text) && Steps(env, ns, acts, ess) && Inv(env, ns[0])
    requires i < k < |acts| && AllSilent(acts, i, k + 1, v)
    requires GraceAt(env, ns[i], acts[i], v) && !ns[i].backup.closed
    ensures !GraceAt(env, ns[k], acts[k], v)
  {
    GraceSpendsAt(env, ns, acts, ess, i, v);
    GoneThrough(env, ns, acts, ess, i + 1, k, v);
    NoGraceAt(env, ns, acts, ess, k, v);
  }

  /** The grace ends exactly because the store takes the deletion: a closed one would grant it again. */
  lemma GraceNeedsOpenStore(env: Env, n: Node, a: Act, es: seq<Event>, m: Node, b: Act, v: int)
    requires Step(env, n, a, es, m) && Silent(a, v) && a.Apply? && BelievedAt(env, n, a)
    requires v in Programmed(env, n, a)
    requires b.Apply? && !b.origin.Hook? && Silent(b, v) && BelievedAt(env, m, b) && v !in b.trouble.noRead
    ensures v in Programmed(env, m, b) <==> n.backup.closed
  {
    var j, l := JobOf(env, n, a.origin, a.all, a.trouble), JobOf(env, m, b.origin, b.all, b.trouble);
    LoadGivesUsable(j.backup, v, j.noRead);
    AfterApply(j, v);
    LoadGivesUsable(l.backup, v, l.noRead);
  }

  // ---- Deletion by delta ----

  /** Neither the backup nor the last programmed set has anything left for v. */
  predicate Erased(n: Node, v: int) {
    Gone(n.backup, v) && v !in n.core.lastApplied
  }

  /** A delta apply that succeeds and leaves an active VM without mappings, its backup taken back or already gone. */
  ghost predicate DeletesAt(env: Env, n: Node, a: Act, m: Node, v: int) {
    && a.Apply? && a.origin.Hook? && !Fails(env, n, a)
    && IsActive(m.vms, v) && OfVM(a.all, v) == []
    && (n.backup.closed ==> Gone(n.backup, v))
  }

  lemma SyncStaysOpen(parse: Parser, c: Cache, vms: P.VMs, b: B.Store, d: Delta, noRead: set<int>, v: int)
    ensures SyncBackup(parse, c, vms, b, d, noRead).closed == b.closed
    ensures b.closed ==> Usable(SyncBackup(parse, c, vms, b, d, noRead), v) == Usable(b, v)
  {
    var u := Target(c, d, d.name);
    B.ViewLoad(b, {u}, noRead, v);
  }

  lemma HookErases(j: Job, v: int)
    requires j.source == WebhookDelta && v in j.active && OfVM(j.all, v) == [] && !j.backup.closed
    ensures Gone(BackupAfter(j), v) && v !in Applied(j)
  {
    HookBacksUp(j, v);
    TrackedAfterApply(j, v);
  }

  lemma OpenErases(env: Env, n: Node, a: Act, es: seq<Event>, m: Node, v: int)
    requires Step(env, n, a, es, m) && a.Apply? && a.origin.Hook? && !n.backup.closed
    requires IsActive(m.vms, v) && OfVM(a.all, v) == []
    ensures Gone(m.backup, v) && v !in Programmed(env, n, a)
  {
    var o := a.origin;
    SyncStaysOpen(env.parse, PreparedCache(env, n, o, a.all), PreparedVms(n, o), n.backup, o.d, o.noRead, v);
    HookErases(JobOf(env, n, o, a.all, a.trouble), v);
  }

  lemma DeltaErases(env: Env, n: Node, a: Act, es: seq<Event>, m: Node, v: int)
    requires Step(env, n, a, es, m) && DeletesAt(env, n, a, m, v)
    ensures Erased(m, v) && v !in Programmed(env, n, a)
  {
    if n.backup.closed {
      GoneAfterHook(env, n, a, es, m, v);
    } else {
      OpenErases(env, n, a, es, m, v);
    }
    StepProgrammed(env, n, a, es, m);
  }

  lemma NothingLeft(j: Job, v: int)
    requires Gone(j.backup, v) && v !in j.last && OfVM(j.all, v) == []
    ensures v !in Applied(j)
  {
    LoadGivesUsable(j.backup, v, j.noRead);
  }

  lemma ErasedApply(env: Env, n: Node, a: Act, es: seq<Event>, m: Node, v: int)
    requires Step(env, n, a, es, m) && a.Apply? && Silent(a, v) && Erased(n, v)
    ensures Gone(m.backup, v) && v !in Programmed(env, n, a)
  {
    if a.origin.Hook? {
      GoneAfterHook(env, n, a, es, m, v);
    } else {
      GoneAfterApply(env, n, a, es, m, v);
      NothingLeft(JobOf(env, n, a.origin, a.all, a.trouble), v);
    }
  }

  lemma LastAppliedAfter(env: Env, n: Node, a: Act, es: seq<Event>, m: Node)
    requires Step(env, n, a, es, m)
    ensures m.core.lastApplied == if a.Apply? && !Fails(env, n, a) then Programmed(env, n, a) else n.core.lastApplied
  {
  }

  lemma ErasedStays(env: Env, n: Node, a: Act, es: seq<Event>, m: Node, v: int)
    requires B.CacheTrue(n.backup) && Step(env, n, a, es, m) && Silent(a, v) && Erased(n, v)
    ensures Erased(m, v)
    ensures a.Apply? ==> v !in Programmed(env, n, a)
  {
    LastAppliedAfter(env, n, a, es, m);
    if a.Apply? {
      ErasedApply(env, n, a, es, m, v);
    } else {
      GoneStays(env, n, a, es, m, v);
    }
  }

  lemma ErasedNext(env: Env, ns: seq<Node>, acts: seq<Act>, ess: seq<seq<Event>>, i: nat, v: int)
    requires GoodText(env.text) && Steps(env, ns, acts, ess) && Inv(env, ns[0])
    requires i < |acts| && Silent(acts[i], v) && Erased(ns[i], v)
    ensures Erased(ns[i + 1], v)
    ensures acts[i].Apply? ==> v !in Programmed(env, ns[i], acts[i])
  {
    RunInv(env, ns, acts, ess, i);
    ErasedStays(env, ns[i], acts[i], ess[i], ns[i + 1], v);
  }

  lemma {:induction false} ErasedThrough(env: Env, ns: seq<Node>, acts: seq<Act>, ess: seq<seq<Event>>, i: nat, k: nat,
                                         v: int)
    requires GoodText(env.text) && Steps(env, ns, acts, ess) && Inv(env, ns[0])
    requires i <= k < |ns| && Erased(ns[i], v)
    requires AllSilent(acts, i, k, v)
    ensures Erased(ns[k], v)
  {
    if i < k {
      ErasedThrough(env, ns, acts, ess, i, k - 1, v);
      ErasedNext(env, ns, acts, ess, k - 1, v);
    }
  }

  /** An apply that programs v. */
  ghost predicate Programs(env: Env, n: Node, a: Act, v: int) {
    a.Apply? && v in Programmed(env, n, a)
  }

  lemma DeltaErasesAt(env: Env, ns: seq<Node>, acts: seq<Act>, ess: seq<seq<Event>>, i: nat, v: int)
    requires Steps(env, ns, acts, ess) && i < |acts|
    ensures DeletesAt(env, ns[i], acts[i], ns[i + 1], v) ==> Erased(ns[i + 1], v)
  {
    if DeletesAt(env, ns[i], acts[i], ns[i + 1], v) {
      DeltaErases(env, ns[i], acts[i], ess[i], ns[i + 1], v);
    }
  }

  lemma NotProgrammedAt(env: Env, ns: seq<Node>, acts: seq<Act>, ess: seq<seq<Event>>, i: nat, v: int)
    requires GoodText(env.text) && Steps(env, ns, acts, ess) && Inv(env, ns[0])
    requires i < |acts| && Silent(acts[i], v) && Erased(ns[i], v)
    ensures !Programs(env, ns[i], acts[i], v)
  {
    ErasedNext(env, ns, acts, ess, i, v);
  }

  /** What is erased is not programmed again while it stays unlisted. */
  lemma StaysOut(env: Env, ns: seq<Node>, acts: seq<Act>, ess: seq<seq<Event>>, i: nat, k: nat, v: int)
    requires GoodText(env.text) && Steps(env, ns, acts, ess) && Inv(env, ns[0])
    requires i <= k < |acts| && AllSilent(acts, i, k + 1, v) && Erased(ns[i], v)
    ensures !Programs(env, ns[k], acts[k], v)
  {
    ErasedThrough(env, ns, acts, ess, i, k, v);
    NotProgrammedAt(env, ns, acts, ess, k, v);
  }

  /**
   Once a delta apply succeeds with nothing cached for an active VM, no later apply that
   does not list it programs it again, deltas about other VMs included: not from its
   backup, not from what was programmed.
   */
  lemma DeletionIsFinal(env: Env, ns: seq<Node>, acts: seq<Act>, ess: seq<seq<Event>>, i: nat, k: nat, v: int)
    requires GoodText(env.text) && Steps(env, ns, acts, ess) && Inv(env, ns[0])
    requires i < k < |acts| && AllSilent(acts, i + 1, k + 1, v)
    requires DeletesAt(env, ns[i], acts[i], ns[i + 1], v)
    ensures !Programs(env, ns[k], acts[k], v)
  {
    DeltaErasesAt(env, ns, acts, ess, i, v);
    StaysOut(env, ns, acts, ess, i + 1, k, v);
  }

  /** A fallback programs what the backup gives or, with no backup to use, what was programmed last. */
  lemma FallbackUses(env: Env, n: Node, b: Act, v: int)
    requires b.Apply? && b.origin.FetchFailed? && b.all == []
    requires IsActive(n.vms, v) && (Usable(n.backup, v) != [] ==> v !in b.trouble.noRead)
    ensures v in Programmed(env, n, b) <==> Usable(n.backup, v) != [] || At(n.core.lastApplied, v) != []
  {
    var l := JobOf(env, n, b.origin, b.all, b.trouble);
    LoadGivesUsable(l.backup, v, l.noRead);
  }

  lemma HookEmpties(j: Job, v: int)
    requires j.source == WebhookDelta && v in j.active && OfVM(j.all, v) == []
    ensures Usable(BackupAfter(j), v) == if j.backup.closed then Usable(j.backup, v) else []
    ensures v !in Applied(j)
  {
    AfterApply(j, v);
  }

  lemma HookLeaves(env: Env, n: Node, a: Act, es: seq<Event>, m: Node, v: int)
    requires Step(env, n, a, es, m) && a.Apply? && a.origin.Hook?
    requires IsActive(m.vms, v) && OfVM(a.all, v) == []
    ensures Usable(m.backup, v) == if n.backup.closed then Usable(n.backup, v) else []
    ensures At(m.core.lastApplied, v) == if Fails(env, n, a) then At(n.core.lastApplied, v) else []
  {
    var o := a.origin;
    SyncStaysOpen(env.parse, PreparedCache(env, n, o, a.all), PreparedVms(n, o), n.backup, o.d, o.noRead, v);
    HookEmpties(JobOf(env, n, o, a.all, a.trouble), v);
    LastAppliedAfter(env, n, a, es, m);
  }

  /**
   A deletion fails to stick exactly if the closed store still has a backup or nft failed:
   then, and only then, the very next fallback programs the VM again.
   */
  lemma DeletionNeedsSuccess(env: Env, n: Node, a: Act, es: seq<Event>, m: Node, b: Act, v: int)
    requires Step(env, n, a, es, m) && a.Apply? && a.origin.Hook?
    requires IsActive(m.vms, v) && OfVM(a.all, v) == []
    requires b.Apply? && b.origin.FetchFailed? && b.all == [] && (n.backup.closed ==> v !in b.trouble.noRead)
    ensures v in Programmed(env, m, b) <==>
            (n.backup.closed && Usable(n.backup, v) != []) || (Fails(env, n, a) && At(n.core.lastApplied, v) != [])
  {
    HookLeaves(env, n, a, es, m, v);
    FallbackUses(env, m, b, v);
  }

  // ---- Backups after a delta ----

  /** After a delta the backup of every active VM is its cached entries or nothing; a closed store keeps what it had. */
  lemma BackupAgreesWithCache(env: Env, n: Node, a: Act, es: seq<Event>, m: Node, v: int)
    requires Inv(env, n) && Step(env, n, a, es, m) && a.Apply? && a.origin.Hook?
    requires IsActive(m.vms, v) && v > 0
    ensures Usable(m.backup, v) == if n.backup.closed then Usable(n.backup, v) else At(m.cache.byVMID, v)
    ensures !n.backup.closed ==>
              if At(m.cache.byVMID, v) != [] then B.View(m.backup, v) == Some(B.Encode(At(m.cache.byVMID, v)))
              else B.NoBytes(B.View(m.backup, v))
  {
    var o := a.origin;
    var j := JobOf(env, n, o, a.all, a.trouble);
    PreparedFiled(env, n, o, a.all);
    ListingOfVM(m.cache, a.all, v);
    SyncStaysOpen(env.parse, PreparedCache(env, n, o, a.all), PreparedVms(n, o), n.backup, o.d, o.noRead, v);
    if n.backup.closed {
      AfterApply(j, v);
    } else {
      HookBacksUp(j, v);
    }
  }

  lemma HookBacksUp(j: Job, v: int)
    requires j.source == WebhookDelta && v in j.active && !j.backup.closed
    ensures Usable(BackupAfter(j), v) == OfVM(j.all, v)
    ensures if OfVM(j.all, v) != [] then B.View(BackupAfter(j), v) == Some(B.Encode(OfVM(j.all, v)))
            else B.NoBytes(B.View(BackupAfter(j), v))
  {
    AfterApply(j, v);
    WritesAt(j, v);
  }

  // ---- Service through fetches that cannot be believed ----

  /** Each programmed VM has a backup of exactly what is programmed, or none it could be given instead. */
  ghost predicate BackedUp(n: Node) {
    forall v | v in n.core.lastApplied ::
      && n.core.lastApplied[v] != []
      && Tracked(n.backup, v)
      && (Usable(n.backup, v) == [] || Usable(n.backup, v) == n.core.lastApplied[v])
  }

  /** Steps after which service is still kept: nft succeeds and the store stays open. */
  ghost predicate Smooth(env: Env, n: Node, a: Act) {
    && (a.Apply? ==> !Fails(env, n, a))
    && !a.CloseBackup?
    && !n.backup.closed
  }

  lemma ProgrammedIsBackedUp(j: Job, v: int)
    requires !j.backup.closed && v in Applied(j)
    requires v in j.last ==> Tracked(j.backup, v) && (Usable(j.backup, v) == [] || Usable(j.backup, v) == j.last[v])
    ensures Tracked(BackupAfter(j), v)
    ensures Usable(BackupAfter(j), v) == [] || Usable(BackupAfter(j), v) == Applied(j)[v]
  {
    AfterApply(j, v);
    LoadGivesUsable(j.backup, v, j.noRead);
    TrackedAfterApply(j, v);
  }

  /** Deltas aside, an apply leaves nothing programmed without its backup. */
  lemma BackedUpAfterApply(env: Env, n: Node, a: Act, es: seq<Event>, m: Node)
    requires BackedUp(n) && Step(env, n, a, es, m) && Smooth(env, n, a) && a.Apply? && !a.origin.Hook?
    ensures BackedUp(m)
  {
    var j := JobOf(env, n, a.origin, a.all, a.trouble);
    assert m.core.lastApplied == Applied(j) && m.backup == BackupAfter(j);
    forall v | v in Applied(j)
      ensures Tracked(m.backup, v) && (Usable(m.backup, v) == [] || Usable(m.backup, v) == Applied(j)[v])
    {
      ProgrammedIsBackedUp(j, v);
    }
  }

  /** A delta apply backs up everything it programs, whatever the backups held before. */
  lemma BackedUpAfterHook(env: Env, n: Node, a: Act, es: seq<Event>, m: Node)
    requires Step(env, n, a, es, m) && Smooth(env, n, a) && a.Apply? && a.origin.Hook?
    ensures BackedUp(m)
  {
    var j := JobOf(env, n, a.origin, a.all, a.trouble);
    assert m.core.lastApplied == Applied(j) && m.backup == BackupAfter(j);
    forall v | v in Applied(j)
      ensures Tracked(m.backup, v) && Usable(m.backup, v) == Applied(j)[v]
    {
      HookBacksUp(j, v);
      TrackedAfterApply(j, v);
    }
  }

  lemma BackedUpAfterWarm(n: Node, scan: B.Scan, m: Node)
    requires B.CacheTrue(n.backup) && BackedUp(n)
    requires m.core == n.core && m.backup == B.Warm(n.backup, scan)
    ensures BackedUp(m)
  {
    forall v | v in n.core.lastApplied { AfterWarm(n.backup, scan, v); }
  }

  lemma BackedUpAfterFlush(n: Node, fails: map<int, Option<B.Bytes>>, m: Node)
    requires BackedUp(n) && m.core == n.core && m.backup == B.Flush(n.backup, fails)
    ensures BackedUp(m)
  {
    forall v | v in n.core.lastApplied { AfterFlush(n.backup, fails, v); }
  }

  lemma SmoothStaysOpen(env: Env, n: Node, a: Act, es: seq<Event>, m: Node)
    requires Step(env, n, a, es, m) && Smooth(env, n, a)
    ensures !m.backup.closed
  {
    if a.Apply? {
      ApplyStaysOpen(env, n, a.origin, a.all, a.trouble, es, m);
    } else {
      OthersStayOpen(env, n, a, es, m);
    }
  }

  lemma ApplyStaysOpen(env: Env, n: Node, o: Origin, all: seq<Mapping>, t: Trouble, es: seq<Event>, m: Node)
    requires Step(env, n, Act.Apply(o, all, t), es, m)
    ensures m.backup.closed == n.backup.closed
  {
    if o.Hook? {
      SyncStaysOpen(env.parse, PreparedCache(env, n, o, all), PreparedVms(n, o), n.backup, o.d, o.noRead, 0);
    }
  }

  lemma OthersStayOpen(env: Env, n: Node, a: Act, es: seq<Event>, m: Node)
    requires Step(env, n, a, es, m) && !a.Apply? && !a.CloseBackup?
    ensures m.backup.closed == n.backup.closed
  {
  }

  lemma KeepsBackups(env: Env, n: Node, a: Act, es: seq<Event>, m: Node)
    requires Step(env, n, a, es, m) && !a.Apply? && !a.WarmBackup? && !a.FlushBackup? && !a.CloseBackup?
    ensures m.backup == n.backup && m.core.lastApplied == n.core.lastApplied
  {
  }

  lemma BackedUpStep(env: Env, n: Node, a: Act, es: seq<Event>, m: Node)
    requires B.CacheTrue(n.backup) && BackedUp(n) && Step(env, n, a, es, m) && Smooth(env, n, a)
    ensures BackedUp(m) && !m.backup.closed
  {
    SmoothStaysOpen(env, n, a, es, m);
    if a.Apply? {
      if a.origin.Hook? { BackedUpAfterHook(env, n, a, es, m); } else { BackedUpAfterApply(env, n, a, es, m); }
    } else if a.WarmBackup? {
      BackedUpAfterWarm(n, a.scan, m);
    } else if a.FlushBackup? {
      BackedUpAfterFlush(n, a.fails, m);
    } else {
      KeepsBackups(env, n, a, es, m);
    }
  }

  ghost predicate AllSmooth(env: Env, ns: seq<Node>, acts: seq<Act>)
    requires |ns| == |acts| + 1
  {
    forall i | 0 <= i < |acts| :: Smooth(env, ns[i], acts[i])
  }

  lemma BackedUpNext(env: Env, ns: seq<Node>, acts: seq<Act>, ess: seq<seq<Event>>, i: nat)
    requires GoodText(env.text) && Steps(env, ns, acts, ess) && Boot(ns[0]) && AllSmooth(env, ns, acts)
    requires i < |acts| && BackedUp(ns[i])
    ensures BackedUp(ns[i + 1])
  {
    BootInv(env, ns[0]);
    RunInv(env, ns, acts, ess, i);
    BackedUpStep(env, ns[i], acts[i], ess[i], ns[i + 1]);
  }

  lemma {:induction false} AlwaysBackedUp(env: Env, ns: seq<Node>, acts: seq<Act>, ess: seq<seq<Event>>, i: nat)
    requires GoodText(env.text) && Steps(env, ns, acts, ess) && Boot(ns[0]) && AllSmooth(env, ns, acts)
    requires i < |ns|
    ensures BackedUp(ns[i])
  {
    if i > 0 {
      AlwaysBackedUp(env, ns, acts, ess, i - 1);
      BackedUpNext(env, ns, acts, ess, i - 1);
    }
  }

  /** A fetch that failed, or one that found nothing at all while VMs run here. */
  ghost predicate Unbelieved(env: Env, n: Node, a: Act) {
    a.Apply? && !a.origin.Hook? && !BelievedAt(env, n, a) && (a.origin.FetchFailed? ==> a.all == [])
  }

  lemma KeepsWhatItHas(env: Env, n: Node, a: Act, v: int)
    requires BackedUp(n) && Unbelieved(env, n, a)
    requires IsActive(n.vms, v) && v in n.core.lastApplied
    ensures v in Programmed(env, n, a) && Programmed(env, n, a)[v] == n.core.lastApplied[v]
  {
    var j := JobOf(env, n, a.origin, a.all, a.trouble);
    assert a.all == [] && OfVM(a.all, v) == [];
    LoadGivesUsable(j.backup, v, j.noRead);
  }

  /**
   In every run in which nft succeeds, an apply that cannot be believed leaves every active,
   previously programmed VM with exactly the mappings it had.
   */
  lemma ServiceIsKept(env: Env, ns: seq<Node>, acts: seq<Act>, ess: seq<seq<Event>>, i: nat, v: int)
    requires GoodText(env.text) && Steps(env, ns, acts, ess) && Boot(ns[0]) && AllSmooth(env, ns, acts)
    requires i < |acts| && Unbelieved(env, ns[i], acts[i])
    requires IsActive(ns[i].vms, v) && v in ns[i].core.lastApplied
    ensures v in ns[i + 1].core.lastApplied && ns[i + 1].core.lastApplied[v] == ns[i].core.lastApplied[v]
  {
    AlwaysBackedUp(env, ns, acts, ess, i);
    KeepsWhatItHas(env, ns[i], acts[i], v);
    StepProgrammed(env, ns[i], acts[i], ess[i], ns[i + 1]);
  }

  lemma StepProgrammed(env: Env, n: Node, a: Act, es: seq<Event>, m: Node)
    requires Step(env, n, a, es, m) && a.Apply? && !Fails(env, n, a)
    ensures m.core.lastApplied == Programmed(env, n, a)
  {
  }

  // ---- Repetition ----

  /**
   A step that touches nothing a fallback depends on: it may move VMs that are not active, flush,
   queue, refill the cache.
   */
  predicate Idle(n: Node, a: Act, m: Node) {
    && (a.Queue? || a.Dequeue? || a.RecordFetch? || a.SeedCache? || a.FlushBackup? || a.Place? || a.Observe? ||
        a.ExpireStaged?)
    && P.WithStatus(m.vms, P.Active) == P.WithStatus(n.vms, P.Active)
  }

  /** Two nodes a fallback cannot tell apart. */
  ghost predicate Alike(m: Node, l: Node) {
    && l.core == m.core && l.kernel == m.kernel
    && P.WithStatus(l.vms, P.Active) == P.WithStatus(m.vms, P.Active)
    && forall v :: Usable(l.backup, v) == Usable(m.backup, v) && (Tracked(m.backup, v) ==> Tracked(l.backup, v))
  }

  lemma IdleStep(env: Env, n: Node, a: Act, es: seq<Event>, m: Node)
    requires Step(env, n, a, es, m) && Idle(n, a, m)
    ensures Alike(n, m)
  {
    if a.FlushBackup? {
      forall v ensures Usable(m.backup, v) == Usable(n.backup, v) && (Tracked(n.backup, v) ==> Tracked(m.backup, v)) {
        AfterFlush(n.backup, a.fails, v);
      }
    }
  }

  ghost predicate AllIdle(ns: seq<Node>, acts: seq<Act>, from: nat, to: nat)
    requires |ns| == |acts| + 1
  {
    forall x, y {:trigger Idle(ns[x], acts[x], ns[y])} | from <= x < to && x < |acts| && y == x + 1 ::
      Idle(ns[x], acts[x], ns[y])
  }

  lemma IdleNext(env: Env, ns: seq<Node>, acts: seq<Act>, ess: seq<seq<Event>>, i: nat, k: nat)
    requires Steps(env, ns, acts, ess) && i <= k < |acts| && AllIdle(ns, acts, i, k + 1)
    requires Alike(ns[i], ns[k])
    ensures Alike(ns[i], ns[k + 1])
  {
    IdleStep(env, ns[k], acts[k], ess[k], ns[k + 1]);
  }

  lemma {:induction false} IdleThrough(env: Env, ns: seq<Node>, acts: seq<Act>, ess: seq<seq<Event>>, i: nat, k: nat)
    requires Steps(env, ns, acts, ess) && i <= k < |ns| && AllIdle(ns, acts, i, k)
    ensures Alike(ns[i], ns[k])
  {
    if i < k {
      IdleThrough(env, ns, acts, ess, i, k - 1);
      IdleNext(env, ns, acts, ess, i, k - 1);
    }
  }

  /** Repeating an unbelieved apply over the same VMs programs the same again. */
  lemma RepeatsItself(env: Env, n: Node, a: Act, es: seq<Event>, m: Node, l: Node, b: Act)
    requires BackedUp(n) && Smooth(env, n, a)
    requires Step(env, n, a, es, m) && Alike(m, l) && Unbelieved(env, n, a) && Unbelieved(env, l, b)
    requires a.trouble.noRead !! P.WithStatus(n.vms, P.Active)
    ensures Programmed(env, l, b) == Programmed(env, n, a)
  {
    BackedUpAfterApply(env, n, a, es, m);
    forall v ensures Lookup(Programmed(env, n, a), v) == Lookup(Programmed(env, l, b), v) {
      RepeatsFor(env, n, a, es, m, l, b, v);
    }
    SameLookups(Programmed(env, n, a), Programmed(env, l, b));
  }

  lemma SameLookups<V>(p: map<int, V>, q: map<int, V>)
    requires forall v :: Lookup(p, v) == Lookup(q, v)
    ensures p == q
  {
    forall v ensures v in p <==> v in q {
      assert Lookup(p, v) == Lookup(q, v);
    }
    assert forall v | v in p :: Lookup(p, v) == Lookup(q, v);
  }

  lemma AlikeBackedUp(m: Node, l: Node)
    requires BackedUp(m) && Alike(m, l)
    ensures BackedUp(l)
  {
  }

  lemma RepeatsFor(env: Env, n: Node, a: Act, es: seq<Event>, m: Node, l: Node, b: Act, v: int)
    requires BackedUp(m) && Smooth(env, n, a) && Alike(m, l)
    requires Step(env, n, a, es, m) && Unbelieved(env, n, a) && Unbelieved(env, l, b)
    requires a.trouble.noRead !! P.WithStatus(n.vms, P.Active)
    ensures v in Programmed(env, n, a) <==> v in Programmed(env, l, b)
    ensures v in Programmed(env, n, a) ==> Programmed(env, l, b)[v] == Programmed(env, n, a)[v]
  {
    StepProgrammed(env, n, a, es, m);
    AlikeBackedUp(m, l);
    var j, k := JobOf(env, n, a.origin, a.all, a.trouble), JobOf(env, l, b.origin, b.all, b.trouble);
    assert IsActive(l.vms, v) <==> v in P.WithStatus(m.vms, P.Active);
    if v in Programmed(env, n, a) {
      KeepsWhatItHas(env, l, b, v);
    } else if v in j.active {
      assert v !in a.trouble.noRead;
      LoadGivesUsable(j.backup, v, j.noRead);
      AfterApply(j, v);
      LoadGivesUsable(k.backup, v, k.noRead);
    }
  }

  /** The first of two such applies went through without any error, and kernel adoption is done. */
  ghost predicate WentThrough(env: Env, n: Node, a: Act, m: Node)
    requires a.Apply?
  {
    PassOk(PassStart(n, a, m), Wanted(env, n, a), a.trouble.kernel) && m.core.announced.synced
  }

  /** The operations fs leave the ruleset of m alone and, if quiet, there are none of them. */
  predicate Repeats(fs: seq<Event>, m: Node, k: Node, quiet: bool) {
    && (forall x | 0 <= x < |fs| :: !fs[x].NftApply?)
    && k.kernel.rules == m.kernel.rules
    && (quiet ==> fs == [] && k.kernel == m.kernel && k.core.announced == m.core.announced)
  }

  /** An unbelieved apply that succeeds, on a node that has backed up what it programs and can read it. */
  ghost predicate FallsBack(env: Env, n: Node, a: Act) {
    Unbelieved(env, n, a) && Smooth(env, n, a) && BackedUp(n) && a.trouble.noRead !! P.WithStatus(n.vms, P.Active)
  }

  /** The repetition never runs nft, and once the first pass went through it does nothing at all. */
  lemma RepetitionIsQuiet(env: Env, ns: seq<Node>, acts: seq<Act>, ess: seq<seq<Event>>, i: nat, k: nat)
    requires GoodText(env.text) && Steps(env, ns, acts, ess) && Inv(env, ns[0])
    requires i < k < |acts| && AllIdle(ns, acts, i + 1, k)
    requires FallsBack(env, ns[i], acts[i]) && Unbelieved(env, ns[k], acts[k])
    ensures Repeats(ess[k], ns[i + 1], ns[k + 1], WentThrough(env, ns[i], acts[i], ns[i + 1]))
  {
    EndsOf(env, ns, acts, ess, i, k);
    RepetitionAt(env, ns[i], acts[i], ess[i], ns[i + 1], ns[k], acts[k], ess[k], ns[k + 1]);
  }

  /** The two ends of an idle stretch. */
  lemma EndsOf(env: Env, ns: seq<Node>, acts: seq<Act>, ess: seq<seq<Event>>, i: nat, k: nat)
    requires GoodText(env.text) && Steps(env, ns, acts, ess) && Inv(env, ns[0])
    requires i < k < |acts| && AllIdle(ns, acts, i + 1, k)
    ensures Inv(env, ns[i]) && Alike(ns[i + 1], ns[k])
    ensures Step(env, ns[i], acts[i], ess[i], ns[i + 1]) && Step(env, ns[k], acts[k], ess[k], ns[k + 1])
  {
    RunInv(env, ns, acts, ess, i);
    IdleThrough(env, ns, acts, ess, i + 1, k);
  }

  lemma RepetitionAt(env: Env, n: Node, a: Act, es: seq<Event>, m: Node, l: Node, b: Act, fs: seq<Event>, k: Node)
    requires Inv(env, n) && FallsBack(env, n, a) && Unbelieved(env, l, b)
    requires Step(env, n, a, es, m) && Alike(m, l) && Step(env, l, b, fs, k)
    ensures Repeats(fs, m, k, WentThrough(env, n, a, m))
  {
    RepeatsItself(env, n, a, es, m, l, b);
    var applied := Programmed(env, l, b);
    SuccessMakesUnchanged(env.text, n.core, n.kernel, applied, Managed(m.cache, m.backup), a.trouble.kernel, es,
                          m.core, m.kernel);
    QuietApply(env.text, l.core, l.kernel, applied, Managed(k.cache, k.backup), b.trouble.kernel, fs, k.core, k.kernel);
  }
}
