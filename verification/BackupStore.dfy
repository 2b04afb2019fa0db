/**
 The backup store as an object whose fields its methods update. The directory is the
 field files; which reads and writes fail is a parameter of the call that makes them.
 A flush is one step here; Flusher.dfy takes it apart.
 */
module BackupStores {
  import opened Options
  import opened Net
  import B = Backup

  /** Every mapping found under the VMIDs the store knows about. */
  ghost function KnownMappings(s: B.Store): set<Mapping> {
    set v, m | v in s.known && B.DecodeOpt(B.View(s, v)).Found? && m in B.DecodeOpt(B.View(s, v)).mappings :: m
  }

  /** A scan of a fresh store makes known exactly what the readable files of positive VMIDs list. */
  lemma KnownAfterScan(files: map<int, B.Bytes>, bad: set<int>, x: Mapping)
    ensures x in KnownMappings(B.Warm(B.Fresh(files), B.Listed(bad))) <==>
            exists v :: v in files && v > 0 && v !in bad && B.Lists(files[v].doc, x)
  {
    var s := B.Warm(B.Fresh(files), B.Listed(bad));
    assert forall v :: v in s.known <==> v in files && v > 0 && v !in bad;
    forall v | v in s.known
      ensures B.View(s, v) == Some(files[v])
      ensures B.DecodeOpt(B.View(s, v)).Found? && x in B.DecodeOpt(B.View(s, v)).mappings <==> B.Lists(files[v].doc, x)
    {
      B.DecodeIs(files[v], x);
    }
  }

  class BackupStore {
    var cache: map<int, Option<B.Bytes>>
    var known: set<int>
    var scanned: bool
    var pending: map<int, Option<B.Bytes>>
    var closed: bool
    var files: map<int, B.Bytes>

    ghost function Abs(): B.Store
      reads this
    {
      B.Store(cache, known, scanned, pending, closed, files)
    }

    constructor (files: map<int, B.Bytes>)
      ensures Abs() == B.Fresh(files)
    {
      cache, known, scanned, pending, closed := map[], {}, false, map[], false;
      this.files := files;
    }

    method Warm(scan: B.Scan)
      modifies this
      ensures Abs() == B.Warm(old(Abs()), scan)
    {
      if scan.ScanFailed? {
        return;
      }
      ghost var s := Abs();
      var loaded := ReadDirectory(scan);
      Merge(loaded);
      scanned := true;
      WarmIsMerge(s, scan, loaded);
    }

    /** Takes over what the scan read, except where a newer write is queued. */
    method Merge(loaded: map<int, Option<B.Bytes>>)
      modifies this
      ensures Abs() == Merged(old(Abs()), loaded)
    {
      ghost var s := Abs();
      var left := loaded.Keys;
      MergeNothing(s, loaded);
      while left != {}
        invariant left <= loaded.Keys
        invariant Abs() == Merged(s, loaded - left)
        decreases left
      {
        ghost var w := Pick(left);
        assert w in left;
        var v :| v in left;
        MergeOneMore(s, loaded, left, v);
        left := left - {v};
        if v !in pending {
          cache, known := cache[v := loaded[v]], known + {v};
        }
      }
      assert loaded - left == loaded;
    }

    /** The scan's own loop: every readable file of a positive VMID. */
    method ReadDirectory(scan: B.Scan) returns (loaded: map<int, Option<B.Bytes>>)
      ensures loaded == map v | v in B.Readable(Abs(), scan) :: B.FileAt(Abs(), v)
    {
      loaded := map[];
      if scan.Listed? {
        var todo := files.Keys;
        while todo != {}
          invariant todo <= files.Keys
          invariant loaded.Keys == B.Readable(Abs(), scan) - todo
          invariant forall v | v in loaded :: loaded[v] == B.FileAt(Abs(), v)
          decreases todo
        {
          ghost var w := Pick(todo);
          assert w in todo;
          var v :| v in todo;
          todo := todo - {v};
          if v > 0 && v !in scan.bad {
            loaded := loaded[v := Some(files[v])];
          }
        }
      }
    }

    method Load(v: int, bad: set<int>) returns (r: B.LoadResult)
      modifies this
      ensures Abs() == B.LoadAll(old(Abs()), {v}, bad)
      ensures r == B.LoadResultOf(old(Abs()), v, bad)
    {
      LoadOne(Abs(), v, bad);
      if v in pending {
        return B.DecodeOpt(pending[v]);
      }
      if v in known {
        return if v in cache then B.DecodeOpt(cache[v]) else B.Absent;
      }
      if scanned {
        return B.Absent;
      }
      if v in bad {
        return B.Error;
      }
      var data := if v in files then Some(files[v]) else None;
      cache, known := cache[v := data], known + {v};
      r := B.DecodeOpt(data);
    }

    method Enqueue(v: int, data: Option<B.Bytes>)
      modifies this`pending
      ensures Abs() == B.EnqueueAll(old(Abs()), map[v := data])
    {
      if closed {
        return;
      }
      ghost var s := Abs();
      if v in pending && B.BytesEqual(pending[v], data) {
        assert B.EnqueueAll(s, map[v := data]).pending == pending;
        return;
      }
      if v !in pending && v in known && B.BytesEqual(if v in cache then cache[v] else None, data) {
        assert B.EnqueueAll(s, map[v := data]).pending == pending;
        return;
      }
      pending := pending[v := data];
      assert B.EnqueueAll(s, map[v := data]).pending == pending;
    }

    method Save(v: int, ms: seq<Mapping>)
      modifies this`pending
      ensures Abs() == B.Step(old(Abs()), B.Save(v, ms))
    {
      if |ms| == 0 {
        Delete(v);
      } else {
        Enqueue(v, Some(B.Encode(ms)));
      }
    }

    method Delete(v: int)
      modifies this`pending
      ensures Abs() == B.Step(old(Abs()), B.Save(v, []))
    {
      Enqueue(v, None);
    }

    /** Every mapping of the VMs the store knows about, in some order. */
    method All() returns (out: seq<Mapping>)
      modifies this
      ensures Abs() == old(Abs())
      ensures (set m | m in out) == KnownMappings(Abs())
    {
      out := [];
      var todo := known;
      ghost var done: set<int> := {};
      ghost var s := Abs();
      while todo != {}
        invariant todo + done == known
        invariant Abs() == s
        invariant forall m :: m in out <==> exists v :: v in done && InFile(s, v, m)
        decreases todo
      {
        ghost var w := Pick(todo);
        assert w in todo;
        var v :| v in todo;
        todo, done := todo - {v}, done + {v};
        assert B.Misses(s, {v}) - {} == {};
        var r := Load(v, {});
        assert Abs() == s;
        if r.Found? {
          ghost var before := out;
          out := out + r.mappings;
          assert forall m :: m in out <==> m in before || m in r.mappings;
        }
        assert forall m :: InFile(s, v, m) <==> r.Found? && m in r.mappings;
      }
      assert done == known;
      assert forall m :: m in KnownMappings(s) <==> exists v :: v in s.known && InFile(s, v, m);
    }

    static predicate InFile(s: B.Store, v: int, m: Mapping) {
      B.DecodeOpt(B.View(s, v)).Found? && m in B.DecodeOpt(B.View(s, v)).mappings
    }

    /** Writes every queued entry; fails names the writes that go wrong and what they leave. */
    method Flush(fails: map<int, Option<B.Bytes>>) returns (ok: bool)
      modifies this
      ensures Abs() == B.Flush(old(Abs()), fails)
      ensures ok <==> B.FlushOk(old(Abs()), fails)
    {
      var batch := pending;
      pending := map[];
      ghost var s := Abs();
      assert s == old(Abs()).(pending := map[]);
      ok := true;
      var todo := batch.Keys;
      FlushNothing(s, batch, fails);
      while todo != {}
        invariant todo <= batch.Keys
        invariant Abs() == Flushed(s, batch, todo, fails)
        invariant ok <==> forall v | v in batch && v !in todo :: v !in fails
        decreases todo
      {
        ghost var w := Pick(todo);
        assert w in todo;
        var v :| v in todo;
        FlushOneMore(s, batch, todo, v, fails);
        todo := todo - {v};
        var recorded := FlushOne(v, batch[v], fails);
        ok := ok && recorded;
      }
      FlushAll(s, batch, fails);
    }

    /** One entry of a batch; a failure forgets the cached copy and queues the value again. */
    method FlushOne(v: int, data: Option<B.Bytes>, fails: map<int, Option<B.Bytes>>) returns (ok: bool)
      modifies this
      ensures Abs() == B.FlushEntry(old(Abs()), v, data, fails)
      ensures ok <==> v !in fails
    {
      ok := v !in fails;
      var left := if ok then data else fails[v];
      files := if left.Some? then files[v := left.value] else files - {v};
      if ok {
        cache, known := cache[v := data], known + {v};
      } else {
        cache, known := cache - {v}, known - {v};
        if v !in pending {
          pending := pending[v := data];
        }
      }
    }

    /** close once the flusher has drained: the store refuses writes and flushes what is queued. */
    method Close(fails: map<int, Option<B.Bytes>>) returns (ok: bool)
      modifies this
      ensures Abs() == B.Step(old(Abs()), B.Close(fails))
      ensures ok <==> pending == map[]
    {
      closed := true;
      ghost var s := Abs();
      var _ := Flush(fails);
      ok := pending == map[];
    }
  }

  ghost function Restrict(m: map<int, Option<B.Bytes>>, ks: set<int>): map<int, Option<B.Bytes>> {
    map k | k in m && k in ks :: m[k]
  }

  lemma LoadOne(s: B.Store, v: int, bad: set<int>)
    ensures B.LoadAll(s, {v}, bad) ==
            if v in B.Misses(s, {v}) && v !in bad
            then s.(cache := s.cache[v := B.FileAt(s, v)], known := s.known + {v}) else s
  {
    var t := B.LoadAll(s, {v}, bad);
    if v in B.Misses(s, {v}) && v !in bad {
      assert B.Misses(s, {v}) - bad == {v};
      assert t.cache == s.cache[v := B.FileAt(s, v)];
    } else {
      assert B.Misses(s, {v}) - bad == {};
      assert t.cache == s.cache;
    }
  }

  ghost function Merged(s: B.Store, loaded: map<int, Option<B.Bytes>>): B.Store {
    s.(cache := s.cache + (loaded - s.pending.Keys), known := s.known + (loaded.Keys - s.pending.Keys))
  }

  lemma MergeNothing(s: B.Store, loaded: map<int, Option<B.Bytes>>)
    ensures Merged(s, loaded - loaded.Keys) == s
  {
    assert loaded - loaded.Keys == map[];
    assert Merged(s, map[]).cache == s.cache;
  }

  lemma MergeOneMore(s: B.Store, loaded: map<int, Option<B.Bytes>>, left: set<int>, v: int)
    requires v in left && left <= loaded.Keys
    ensures var p := Merged(s, loaded - left);
            Merged(s, loaded - (left - {v})) ==
              if v in s.pending then p else p.(cache := p.cache[v := loaded[v]], known := p.known + {v})
  {
    var part, more := loaded - left, loaded - (left - {v});
    assert more == part[v := loaded[v]];
    assert more - s.pending.Keys ==
           if v in s.pending then part - s.pending.Keys else (part - s.pending.Keys)[v := loaded[v]];
    assert s.cache + (part - s.pending.Keys)[v := loaded[v]] == (s.cache + (part - s.pending.Keys))[v := loaded[v]];
  }

  lemma WarmIsMerge(s: B.Store, scan: B.Scan, loaded: map<int, Option<B.Bytes>>)
    requires !scan.ScanFailed?
    requires loaded == map v | v in B.Readable(s, scan) :: B.FileAt(s, v)
    ensures B.Warm(s, scan) == Merged(s, loaded).(scanned := true)
  {
    assert loaded.Keys == B.Readable(s, scan);
    assert loaded - s.pending.Keys == map v | v in B.Readable(s, scan) - s.pending.Keys :: B.FileAt(s, v);
  }

  /** The store once all of the batch but todo has been written. */
  ghost function Flushed(s: B.Store, batch: map<int, Option<B.Bytes>>, todo: set<int>,
                         fails: map<int, Option<B.Bytes>>): B.Store {
    B.FlushBatch(s, Restrict(batch, batch.Keys - todo), fails)
  }

  lemma FlushNothing(s: B.Store, batch: map<int, Option<B.Bytes>>, fails: map<int, Option<B.Bytes>>)
    ensures Flushed(s, batch, batch.Keys, fails) == s
  {
    assert Restrict(batch, batch.Keys - batch.Keys) == map[];
    var t := B.FlushBatch(s, map[], fails);
    assert t.files == s.files && t.cache == s.cache && t.known == s.known && t.pending == s.pending;
  }

  lemma FlushAll(s: B.Store, batch: map<int, Option<B.Bytes>>, fails: map<int, Option<B.Bytes>>)
    ensures Flushed(s, batch, {}, fails) == B.FlushBatch(s, batch, fails)
  {
    assert Restrict(batch, batch.Keys - {}) == batch;
  }

  lemma FlushOneMore(s: B.Store, batch: map<int, Option<B.Bytes>>, todo: set<int>, v: int,
                     fails: map<int, Option<B.Bytes>>)
    requires v in todo && todo <= batch.Keys && s.pending == map[]
    ensures Flushed(s, batch, todo - {v}, fails) == B.FlushEntry(Flushed(s, batch, todo, fails), v, batch[v], fails)
  {
    var done := Restrict(batch, batch.Keys - todo);
    assert Restrict(batch, batch.Keys - (todo - {v})) == done[v := batch[v]];
    FlushExtended(s, done, v, batch[v], fails);
  }

  lemma OverwriteOneMore(files: map<int, B.Bytes>, left: map<int, Option<B.Bytes>>, v: int, x: Option<B.Bytes>)
    requires v !in left
    ensures B.Overwrite(files, left[v := x]) == B.Put(B.Overwrite(files, left), v, x)
  {
  }

  /** Flushing a batch with one more entry is flushing that entry after the batch. */
  lemma FlushExtended(s: B.Store, batch: map<int, Option<B.Bytes>>, v: int, x: Option<B.Bytes>,
                      fails: map<int, Option<B.Bytes>>)
    requires v !in batch && s.pending == map[]
    ensures B.FlushBatch(s, batch[v := x], fails) == B.FlushEntry(B.FlushBatch(s, batch, fails), v, x, fails)
  {
    var left := if v in fails then fails[v] else x;
    assert B.LeftBy(batch[v := x], fails) == B.LeftBy(batch, fails)[v := left];
    OverwriteOneMore(s.files, B.LeftBy(batch, fails), v, left);
    RestOfOneMore(s, batch, v, x, fails);
  }

  lemma CacheOneMore(c: map<int, Option<B.Bytes>>, batch: map<int, Option<B.Bytes>>, v: int, x: Option<B.Bytes>,
                     bad: set<int>)
    requires v !in batch
    ensures (c - batch[v := x].Keys) + (batch[v := x] - bad) ==
            var p := (c - batch.Keys) + (batch - bad); if v in bad then p - {v} else p[v := x]
  {
  }

  lemma KnownOneMore(k: set<int>, batch: set<int>, v: int, bad: set<int>)
    requires v !in batch
    ensures (k - (batch + {v})) + (batch + {v} - bad) ==
            var p := (k - batch) + (batch - bad); if v in bad then p - {v} else p + {v}
  {
  }

  lemma FailedOneMore(batch: map<int, Option<B.Bytes>>, v: int, x: Option<B.Bytes>, fails: map<int, Option<B.Bytes>>)
    requires v !in batch
    ensures v in fails ==> B.Failed(batch[v := x], fails) == B.Failed(batch, fails)[v := x]
    ensures v !in fails ==> B.Failed(batch[v := x], fails) == B.Failed(batch, fails)
  {
  }

  lemma PendingOneMore(batch: map<int, Option<B.Bytes>>, v: int, x: Option<B.Bytes>, fails: map<int, Option<B.Bytes>>)
    requires v !in batch
    ensures B.Failed(batch[v := x], fails) + map[] ==
            if v in fails then (B.Failed(batch, fails) + map[])[v := x] else B.Failed(batch, fails) + map[]
    ensures v !in B.Failed(batch, fails) + map[]
  {
    FailedOneMore(batch, v, x, fails);
    assert B.Failed(batch[v := x], fails) + map[] == B.Failed(batch[v := x], fails);
    assert B.Failed(batch, fails) + map[] == B.Failed(batch, fails);
  }

  lemma RestOfOneMore(s: B.Store, batch: map<int, Option<B.Bytes>>, v: int, x: Option<B.Bytes>,
                      fails: map<int, Option<B.Bytes>>)
    requires v !in batch && s.pending == map[]
    ensures var p, q := B.FlushBatch(s, batch, fails), B.FlushBatch(s, batch[v := x], fails);
            var r := B.FlushEntry(p, v, x, fails);
            q.cache == r.cache && q.known == r.known && q.pending == r.pending
  {
    CacheOneMore(s.cache, batch, v, x, fails.Keys);
    assert batch[v := x].Keys == batch.Keys + {v};
    KnownOneMore(s.known, batch.Keys, v, fails.Keys);
    PendingOneMore(batch, v, x, fails);
  }
}
