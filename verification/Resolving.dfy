/** Resolving active VMs one at a time: what the loop of an apply has done after some of them. */
module Resolving {
  import opened Options
  import opened Net
  import B = Backup
  import opened MappingCache
  import opened Apply

  ghost function Only<V>(m: map<int, V>, ks: set<int>): map<int, V> {
    map k | k in m && k in ks :: m[k]
  }

  /** The backups once the VMs of done have been resolved. */
  ghost function PartBackup(j: Job, done: set<int>): B.Store {
    B.EnqueueAll(B.LoadAll(j.backup, Reads(j) * done, j.noRead), Only(Writes(j), done))
  }

  ghost function PartApplied(j: Job, done: set<int>): map<int, seq<Mapping>> {
    Only(Applied(j), done)
  }

  lemma NothingDone(j: Job)
    ensures PartBackup(j, {}) == j.backup && PartApplied(j, {}) == map[]
  {
    assert Reads(j) * {} == {} && Only(Writes(j), {}) == map[];
    var l := B.LoadAll(j.backup, {}, j.noRead);
    assert B.Misses(j.backup, {}) == {};
    assert l.cache == j.backup.cache && l.known == j.backup.known;
    assert B.EnqueueAll(l, map[]).pending == l.pending;
  }

  lemma AllDone(j: Job)
    ensures PartBackup(j, j.active) == BackupAfter(j) && PartApplied(j, j.active) == Applied(j)
  {
    assert Reads(j) * j.active == Reads(j);
    assert Only(Writes(j), j.active) == Writes(j);
  }

  // ---- One more VM ----

  /** Loads for other VMs change nothing a load or an enqueue for v looks at. */
  lemma LoadIsLocal(b: B.Store, vms: set<int>, bad: set<int>, v: int)
    requires v !in vms
    ensures var l := B.LoadAll(b, vms, bad);
            && l.pending == b.pending && l.scanned == b.scanned && l.files == b.files && l.closed == b.closed
            && (v in l.known <==> v in b.known) && B.CacheAt(l, v) == B.CacheAt(b, v)
  {
  }

  lemma EnqueueIsLocal(b: B.Store, writes: map<int, Option<B.Bytes>>, v: int)
    requires v !in writes
    ensures var e := B.EnqueueAll(b, writes);
            && e.cache == b.cache && e.known == b.known && e.scanned == b.scanned && e.files == b.files &&
               e.closed == b.closed
            && (v in e.pending <==> v in b.pending) && (v in b.pending ==> e.pending[v] == b.pending[v])
  {
  }

  lemma PartIsLocal(j: Job, done: set<int>, v: int)
    requires v !in done
    ensures B.LoadResultOf(PartBackup(j, done), v, j.noRead) == B.LoadResultOf(j.backup, v, j.noRead)
    ensures v in PartBackup(j, done).pending <==> v in j.backup.pending
  {
    LoadIsLocal(j.backup, Reads(j) * done, j.noRead, v);
    EnqueueIsLocal(B.LoadAll(j.backup, Reads(j) * done, j.noRead), Only(Writes(j), done), v);
  }

  lemma LoadOneMore(b: B.Store, vms: set<int>, bad: set<int>, v: int)
    requires v !in vms
    ensures B.LoadAll(b, vms + {v}, bad) == B.LoadAll(B.LoadAll(b, vms, bad), {v}, bad)
  {
    var l := B.LoadAll(b, vms, bad);
    LoadIsLocal(b, vms, bad, v);
    var hit, one := B.Misses(b, vms) - bad, B.Misses(b, {v}) - bad;
    assert B.Misses(l, {v}) == B.Misses(b, {v});
    assert B.Misses(b, vms + {v}) - bad == hit + one;
    FilesSplit(b, hit, one);
    assert B.FilesAt(l, one) == B.FilesAt(b, one);
    assert b.cache + (B.FilesAt(b, hit) + B.FilesAt(b, one)) == (b.cache + B.FilesAt(b, hit)) + B.FilesAt(b, one);
    assert b.known + (hit + one) == b.known + hit + one;
  }

  lemma FilesSplit(b: B.Store, s: set<int>, t: set<int>)
    ensures B.FilesAt(b, s + t) == B.FilesAt(b, s) + B.FilesAt(b, t)
  {
  }

  /** A load for v and writes for other VMs may change places. */
  lemma LoadEnqueueSwap(b: B.Store, writes: map<int, Option<B.Bytes>>, vms: set<int>, bad: set<int>)
    requires vms !! writes.Keys
    ensures B.LoadAll(B.EnqueueAll(b, writes), vms, bad) == B.EnqueueAll(B.LoadAll(b, vms, bad), writes)
  {
    var e, l := B.EnqueueAll(b, writes), B.LoadAll(b, vms, bad);
    assert B.Misses(e, vms) == B.Misses(b, vms);
    assert B.FilesAt(e, B.Misses(b, vms) - bad) == B.FilesAt(b, B.Misses(b, vms) - bad);
    forall v | v in writes ensures B.Suppressed(l, v, writes[v]) == B.Suppressed(b, v, writes[v]) {
      LoadIsLocal(b, vms, bad, v);
    }
    assert B.Queued(l, writes) == B.Queued(b, writes);
  }

  lemma QueuedOneMore(b: B.Store, writes: map<int, Option<B.Bytes>>, v: int, data: Option<B.Bytes>)
    requires v !in writes
    ensures B.Queued(b, writes[v := data]) ==
            if B.Suppressed(b, v, data) then B.Queued(b, writes) else B.Queued(b, writes)[v := data]
  {
    if B.Suppressed(b, v, data) {
      assert B.Queued(b, writes[v := data]) == B.Queued(b, writes);
    } else {
      assert B.Queued(b, writes[v := data]) == B.Queued(b, writes)[v := data];
    }
  }

  lemma EnqueueOneMore(b: B.Store, writes: map<int, Option<B.Bytes>>, v: int, data: Option<B.Bytes>)
    requires v !in writes
    ensures B.EnqueueAll(b, writes[v := data]) == B.EnqueueAll(B.EnqueueAll(b, writes), map[v := data])
  {
    var e := B.EnqueueAll(b, writes);
    EnqueueIsLocal(b, writes, v);
    if !b.closed {
      assert B.Suppressed(e, v, data) == B.Suppressed(b, v, data);
      QueuedOneMore(b, writes, v, data);
      QueuedOneMore(e, map[], v, data);
      var p, q := b.pending, B.Queued(b, writes);
      assert B.Queued(e, map[]) == map[] && map[][v := data] == map[v := data];
      assert p + q[v := data] == (p + q) + map[v := data] && (p + q) + map[] == p + q;
    }
  }

  /** Resolving v after done: its load if it consults its backup, then its write if it has one. */
  ghost function OneMore(j: Job, b: B.Store, v: int): B.Store {
    var l := if Consults(j, v) then B.LoadAll(b, {v}, j.noRead) else b;
    if v in Writes(j) then B.EnqueueAll(l, map[v := Writes(j)[v]]) else l
  }

  lemma LoadedOneMore(j: Job, done: set<int>, v: int)
    requires v in j.active && v !in done
    ensures B.EnqueueAll(B.LoadAll(j.backup, Reads(j) * (done + {v}), j.noRead), Only(Writes(j), done)) ==
            if Consults(j, v) then B.LoadAll(PartBackup(j, done), {v}, j.noRead) else PartBackup(j, done)
  {
    var vms, w := Reads(j) * done, Only(Writes(j), done);
    if Consults(j, v) {
      assert Reads(j) * (done + {v}) == vms + {v};
      LoadOneMore(j.backup, vms, j.noRead, v);
      LoadEnqueueSwap(B.LoadAll(j.backup, vms, j.noRead), w, {v}, j.noRead);
    } else {
      assert Reads(j) * (done + {v}) == vms;
    }
  }

  lemma OnlyOneMore<V>(m: map<int, V>, done: set<int>, v: int)
    requires v !in done
    ensures v in m ==> Only(m, done + {v}) == Only(m, done)[v := m[v]]
    ensures v !in m ==> Only(m, done + {v}) == Only(m, done)
    ensures v !in Only(m, done)
  {
  }

  lemma PartOneMore(j: Job, done: set<int>, v: int)
    requires v in j.active && v !in done
    ensures PartBackup(j, done + {v}) == OneMore(j, PartBackup(j, done), v)
  {
    LoadedOneMore(j, done, v);
    var writes := Writes(j);
    OnlyOneMore(writes, done, v);
    if v in writes {
      EnqueueOneMore(B.LoadAll(j.backup, Reads(j) * (done + {v}), j.noRead), Only(writes, done), v, writes[v]);
    }
  }

  lemma AppliedOneMore(j: Job, done: set<int>, v: int)
    requires v in j.active && v !in done
    ensures var ms := DecisionFor(j, v).mappings;
            PartApplied(j, done + {v}) == if ms == [] then PartApplied(j, done) else PartApplied(j, done)[v := ms]
  {
    var ms := DecisionFor(j, v).mappings;
    if ms == [] {
      assert PartApplied(j, done + {v}) == PartApplied(j, done);
    } else {
      assert PartApplied(j, done + {v}) == PartApplied(j, done)[v := ms];
    }
  }

  /** Adding a VM's mappings adds their addresses and their rules. */
  lemma ProgramOneMore(m: map<int, seq<Mapping>>, v: int, ms: seq<Mapping>)
    requires v !in m
    ensures Externals(m[v := ms]) == Externals(m) + (set x | x in ms :: x.external)
    ensures multiset(Flatten(m[v := ms])) == multiset(Flatten(m)) + multiset(ms)
  {
    FlattenAdd(m, v, ms);
    var p := m[v := ms];
    forall ip ensures ip in Externals(p) <==> ip in Externals(m) || exists x :: x in ms && x.external == ip {
      if ip in Externals(m) {
        var u, x :| u in m && x in m[u] && x.external == ip;
        assert u in p && x in p[u];
      }
      if x :| x in ms && x.external == ip {
        assert v in p && x in p[v];
      }
    }
  }

  // ---- One VM's turn in the loop ----

  /** What resolving v does to the backups as they stand at its turn. */
  ghost function ResolveOne(b: B.Store, v: int, source: Source, believed: bool, fetched: seq<Mapping>,
                            last: seq<Mapping>, noRead: set<int>): B.Store {
    var d := Decide(source, believed, fetched, B.LoadResultOf(b, v, noRead), last);
    var l := if fetched == [] && source != WebhookDelta then B.LoadAll(b, {v}, noRead) else b;
    if d.write == Leave then l else B.EnqueueAll(l, map[v := WriteFor(d)])
  }

  /** Earlier turns do not influence v's, and v's turn does what the whole apply says. */
  lemma ResolveOneIs(j: Job, done: set<int>, v: int)
    requires v in j.active && v !in done
    ensures var b, fetched, last := PartBackup(j, done), OfVM(j.all, v), At(j.last, v);
            && Decide(j.source, Believed(j), fetched, B.LoadResultOf(b, v, j.noRead), last) == DecisionFor(j, v)
            && ResolveOne(b, v, j.source, Believed(j), fetched, last, j.noRead) == PartBackup(j, done + {v})
  {
    PartIsLocal(j, done, v);
    PartOneMore(j, done, v);
  }

  /** The loop's variables once the VMs of done have had their turn. */
  ghost predicate PartDone(j: Job, done: set<int>, b: B.Store, applied: map<int, seq<Mapping>>, nft: seq<Mapping>,
                           desired: set<Addr>) {
    && b == PartBackup(j, done)
    && applied == PartApplied(j, done)
    && multiset(nft) == multiset(Flatten(applied))
    && desired == Externals(applied)
  }

  lemma PartDoneStart(j: Job)
    ensures PartDone(j, {}, j.backup, map[], [], {})
  {
    NothingDone(j);
  }

  lemma PartDoneNext(j: Job, done: set<int>, b: B.Store, applied: map<int, seq<Mapping>>, nft: seq<Mapping>,
                     desired: set<Addr>, v: int)
    requires PartDone(j, done, b, applied, nft, desired) && v in j.active && v !in done
    ensures var ms, b' := DecisionFor(j, v).mappings, PartBackup(j, done + {v});
            if ms == [] then PartDone(j, done + {v}, b', applied, nft, desired)
            else PartDone(j, done + {v}, b', applied[v := ms], nft + ms, desired + set x | x in ms :: x.external)
  {
    var ms := DecisionFor(j, v).mappings;
    AppliedOneMore(j, done, v);
    if ms != [] {
      ProgramOneMore(applied, v, ms);
    }
  }
}
