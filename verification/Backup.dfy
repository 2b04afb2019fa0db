/**
 Values and meaning of the per-VM backup store: pending writes over an in-memory
 cache over the files of one directory. A None payload is a tombstone (nil bytes).
 */
module Backup {
  import opened Options
  import opened Net

  /** The JSON value a backup file holds. */
  datatype Doc = Empty | Null | Object(m: Mapping) | Array(ms: seq<Mapping>) | Malformed

  /** File contents: the value plus how it is laid out. Layout 0 is encodeMappings' own. */
  datatype Bytes = Bytes(doc: Doc, layout: nat)

  datatype LoadResult = Absent | Found(mappings: seq<Mapping>) | Error

  function Encode(ms: seq<Mapping>): Bytes
    requires ms != []
  {
    Bytes(if |ms| == 1 then Object(ms[0]) else Array(ms), 0)
  }

  function Decode(b: Bytes): LoadResult {
    match b.doc
    case Null => Found([])
    case Array(ms) => Found(ms)
    case Object(m) => Found([m])
    case Empty => Error
    case Malformed => Error
  }

  function DecodeOpt(b: Option<Bytes>): LoadResult {
    if b.None? then Absent else Decode(b.value)
  }

  /** A lone mapping travels as an object, several as an array; both come back whole. */
  lemma EncodeRoundTrip(ms: seq<Mapping>, ns: seq<Mapping>)
    requires ms != [] && ns != []
    ensures Decode(Encode(ms)) == Found(ms)
    ensures Encode(ms) == Encode(ns) <==> ms == ns
  {
    if Encode(ms) == Encode(ns) {
      assert Found(ms) == Decode(Encode(ms)) == Decode(Encode(ns)) == Found(ns);
    }
  }

  /** The document lists the mapping x. */
  predicate Lists(doc: Doc, x: Mapping) {
    match doc
    case Object(m) => x == m
    case Array(ms) => x in ms
    case _ => false
  }

  /** Reading a file fails exactly on empty and malformed content; otherwise it gives what the document lists. */
  lemma DecodeIs(b: Bytes, x: Mapping)
    ensures Decode(b).Error? <==> b.doc.Empty? || b.doc.Malformed?
    ensures !Decode(b).Error? ==> Decode(b).Found? && (x in Decode(b).mappings <==> Lists(b.doc, x))
  {
  }

  predicate NoBytes(b: Option<Bytes>) {
    b.None? || b.value.doc.Empty?
  }

  /** bytes.Equal: nil and the empty slice are equal. */
  predicate BytesEqual(a: Option<Bytes>, b: Option<Bytes>) {
    (NoBytes(a) && NoBytes(b)) || a == b
  }

  datatype Store = Store(
    cache: map<int, Option<Bytes>>,
    known: set<int>,
    scanned: bool,
    pending: map<int, Option<Bytes>>,
    closed: bool,
    files: map<int, Bytes>)

  function Fresh(files: map<int, Bytes>): Store {
    Store(map[], {}, false, map[], false, files)
  }

  function CacheAt(s: Store, v: int): Option<Bytes> {
    if v in s.cache then s.cache[v] else None
  }

  function FileAt(s: Store, v: int): Option<Bytes> {
    if v in s.files then Some(s.files[v]) else None
  }

  /** What the store stands for at v, wherever the value currently lives. */
  function View(s: Store, v: int): Option<Bytes> {
    if v in s.pending then s.pending[v]
    else if v in s.known then CacheAt(s, v)
    else if s.scanned then None
    else FileAt(s, v)
  }

  /** The plain map the store speeds up. */
  function Meaning(s: Store): map<int, Bytes> {
    map v | v in s.pending.Keys + s.cache.Keys + s.files.Keys && View(s, v).Some? :: View(s, v).value
  }

  // ---- Operations ----

  /** A write is dropped when it repeats what is queued, or what is already on disk. */
  predicate Suppressed(s: Store, v: int, data: Option<Bytes>) {
    if v in s.pending then BytesEqual(s.pending[v], data)
    else v in s.known && BytesEqual(CacheAt(s, v), data)
  }

  /** enqueue for each of several VMs; the writes touch disjoint entries, so their order is irrelevant. */
  function EnqueueAll(s: Store, writes: map<int, Option<Bytes>>): Store {
    if s.closed then s
    else s.(pending := s.pending + Queued(s, writes))
  }

  /** The writes that are not redundant. */
  function Queued(s: Store, writes: map<int, Option<Bytes>>): map<int, Option<Bytes>> {
    map v | v in writes && !Suppressed(s, v, writes[v]) :: writes[v]
  }

  function Payload(ms: seq<Mapping>): Option<Bytes> {
    if ms == [] then None else Some(Encode(ms))
  }

  function Misses(s: Store, vms: set<int>): set<int> {
    set v | v in vms && v !in s.pending && v !in s.known && !s.scanned
  }

  /** load for each of several VMs; reads of the VMs in bad fail. */
  function LoadAll(s: Store, vms: set<int>, bad: set<int>): Store {
    var hit := Misses(s, vms) - bad;
    s.(cache := s.cache + FilesAt(s, hit), known := s.known + hit)
  }

  function FilesAt(s: Store, vms: set<int>): map<int, Option<Bytes>> {
    map v | v in vms :: FileAt(s, v)
  }

  function LoadResultOf(s: Store, v: int, bad: set<int>): LoadResult {
    if v in Misses(s, {v}) && v in bad then Error else DecodeOpt(View(s, v))
  }

  datatype Scan = DirMissing | ScanFailed | Listed(bad: set<int>)

  function Readable(s: Store, scan: Scan): set<int> {
    if scan.Listed? then set v | v in s.files && v > 0 && v !in scan.bad else {}
  }

  function Warm(s: Store, scan: Scan): Store {
    if scan.ScanFailed? then s
    else
      var fetched := Readable(s, scan) - s.pending.Keys;
      s.(cache := s.cache + map v | v in fetched :: FileAt(s, v), known := s.known + fetched, scanned := true)
  }

  /**
   Write out a batch taken from pending. A VMID in fails is a write that failed, leaving
   whatever fails says in the file; it is queued again unless something newer is queued.
   */
  function FlushBatch(s: Store, batch: map<int, Option<Bytes>>, fails: map<int, Option<Bytes>>): Store {
    s.(files := Overwrite(s.files, LeftBy(batch, fails)),
       cache := (s.cache - batch.Keys) + (batch - fails.Keys),
       known := (s.known - batch.Keys) + (batch.Keys - fails.Keys),
       pending := Failed(batch, fails) + s.pending)
  }

  function Failed(batch: map<int, Option<Bytes>>, fails: map<int, Option<Bytes>>): map<int, Option<Bytes>> {
    map v | v in batch && v in fails :: batch[v]
  }

  /** What each write of the batch leaves in its file. */
  function LeftBy(batch: map<int, Option<Bytes>>, fails: map<int, Option<Bytes>>): map<int, Option<Bytes>> {
    map v | v in batch :: if v in fails then fails[v] else batch[v]
  }

  function Overwrite(files: map<int, Bytes>, left: map<int, Option<Bytes>>): map<int, Bytes> {
    (files - left.Keys) + map v | v in left && left[v].Some? :: left[v].value
  }

  /** One entry of the batch: write or remove the file, then record the outcome. */
  function FlushEntry(s: Store, v: int, data: Option<Bytes>, fails: map<int, Option<Bytes>>): Store {
    if v in fails then
      s.(files := Put(s.files, v, fails[v]), cache := s.cache - {v}, known := s.known - {v},
         pending := if v in s.pending then s.pending else s.pending[v := data])
    else
      s.(files := Put(s.files, v, data), cache := s.cache[v := data], known := s.known + {v})
  }

  function Put(files: map<int, Bytes>, v: int, data: Option<Bytes>): map<int, Bytes> {
    if data.Some? then files[v := data.value] else files - {v}
  }

  function Flush(s: Store, fails: map<int, Option<Bytes>>): Store {
    FlushBatch(s.(pending := map[]), s.pending, fails)
  }

  predicate FlushOk(s: Store, fails: map<int, Option<Bytes>>) {
    forall v | v in s.pending :: v !in fails
  }

  // ---- How each operation moves the view of one VM ----

  lemma ViewLoad(s: Store, vms: set<int>, bad: set<int>, v: int)
    ensures View(LoadAll(s, vms, bad), v) == View(s, v)
  {
  }

  lemma ViewEnqueue(s: Store, writes: map<int, Option<Bytes>>, v: int)
    ensures View(EnqueueAll(s, writes), v) ==
            if s.closed || v !in writes || Suppressed(s, v, writes[v]) then View(s, v) else writes[v]
  {
  }

  /** A flush, however many of its writes fail and whatever they leave behind, moves no view. */
  lemma ViewFlush(s: Store, fails: map<int, Option<Bytes>>, v: int)
    ensures View(Flush(s, fails), v) == View(s, v)
  {
  }

  // ---- Refinement of the plain map ----

  /** A cached copy is what the file holds. */
  ghost predicate CacheTrue(s: Store) {
    forall v | v in s.known :: CacheAt(s, v) == FileAt(s, v)
  }

  ghost predicate Inv(s: Store) {
    && CacheTrue(s)
    && (s.scanned ==> forall v | v in s.files :: v in s.known || v in s.pending)
    && (forall v | v in s.pending :: s.pending[v].Some? ==> !s.pending[v].value.doc.Empty?)
  }

  datatype Op =
    | Save(v: int, ms: seq<Mapping>)
    | Load(v: int, bad: set<int>)
    | Warming(scan: Scan)
    | Flushing(fails: map<int, Option<Bytes>>)
    | Close(fails: map<int, Option<Bytes>>)

  /** save with no mappings is delete. */
  function Step(s: Store, op: Op): Store {
    match op
    case Save(v, ms) => EnqueueAll(s, map[v := Payload(ms)])
    case Load(v, bad) => LoadAll(s, {v}, bad)
    case Warming(scan) => Warm(s, scan)
    case Flushing(fails) => Flush(s, fails)
    case Close(fails) => Flush(s.(closed := true), fails)
  }

  function PlainStep(m: map<int, Bytes>, closed: bool, op: Op): map<int, Bytes> {
    if !op.Save? || closed then m
    else if op.ms == [] then m - {op.v}
    else m[op.v := Encode(op.ms)]
  }

  /** Files a directory scan would lose sight of: unreadable, or under a VMID it skips. */
  function Lost(s: Store, scan: Scan): set<int> {
    if scan.ScanFailed? || s.scanned then {}
    else s.files.Keys - s.known - s.pending.Keys - Readable(s, scan)
  }

  /** What a caller can check before the call: no delete over an empty file, no lossy scan. */
  predicate Faithful(s: Store, op: Op) {
    match op
    case Save(v, ms) =>
      ms != [] || s.closed || v in s.pending || v !in s.known || CacheAt(s, v).None? || !NoBytes(CacheAt(s, v))
    case Warming(scan) => Lost(s, scan) == {}
    case _ => true
  }

  lemma MeaningAt(s: Store, v: int)
    ensures (v in Meaning(s)) == View(s, v).Some?
    ensures v in Meaning(s) ==> Meaning(s)[v] == View(s, v).value
  {
  }

  lemma MeaningIs(s: Store, m: map<int, Bytes>)
    requires forall v :: View(s, v) == if v in m then Some(m[v]) else None
    ensures Meaning(s) == m
  {
    forall v ensures v in Meaning(s) <==> v in m { MeaningAt(s, v); }
    forall v | v in m ensures Meaning(s)[v] == m[v] { MeaningAt(s, v); }
  }

  lemma SameViewsSameMeaning(s: Store, t: Store)
    requires forall v :: View(s, v) == View(t, v)
    ensures Meaning(s) == Meaning(t)
  {
    forall v ensures View(s, v) == if v in Meaning(t) then Some(Meaning(t)[v]) else None {
      MeaningAt(t, v);
    }
    MeaningIs(s, Meaning(t));
  }

  lemma FaithfulStep(s: Store, op: Op)
    requires Inv(s) && Faithful(s, op)
    ensures Meaning(Step(s, op)) == PlainStep(Meaning(s), s.closed, op)
  {
    var t, m := Step(s, op), PlainStep(Meaning(s), s.closed, op);
    forall v ensures View(t, v) == if v in m then Some(m[v]) else None {
      MeaningAt(s, v);
      ViewAfterStep(s, op, v);
    }
    MeaningIs(t, m);
  }

  lemma FaithfulKeepsInv(s: Store, op: Op)
    requires Inv(s) && Faithful(s, op)
    ensures Inv(Step(s, op))
  {
    match op
    case Save(v, ms) =>
    case Load(v, bad) =>
    case Warming(scan) =>
      assert forall v | v in s.files :: v !in Lost(s, op.scan);
    case Flushing(fails) => FlushKeepsInv(s, fails);
    case Close(fails) => FlushKeepsInv(s.(closed := true), fails);
  }

  lemma FlushKeepsCacheTrue(s: Store, fails: map<int, Option<Bytes>>)
    requires CacheTrue(s)
    ensures CacheTrue(Flush(s, fails))
  {
    var t := Flush(s, fails);
    forall v | v in t.known ensures CacheAt(t, v) == FileAt(t, v) {
      if v in s.pending {
        assert v !in fails;
      } else {
        assert v in s.known && CacheAt(s, v) == FileAt(s, v);
      }
    }
  }

  lemma OthersKeepCacheTrue(s: Store, vms: set<int>, bad: set<int>, writes: map<int, Option<Bytes>>, scan: Scan)
    requires CacheTrue(s)
    ensures CacheTrue(LoadAll(s, vms, bad)) && CacheTrue(EnqueueAll(s, writes)) && CacheTrue(Warm(s, scan))
  {
  }

  lemma FlushKeepsInv(s: Store, fails: map<int, Option<Bytes>>)
    requires Inv(s)
    ensures Inv(Flush(s, fails))
  {
    var t := Flush(s, fails);
    FlushKeepsCacheTrue(s, fails);
    if t.scanned {
      forall v | v in t.files ensures v in t.known || v in t.pending {
        if v !in s.pending { assert v in s.files; }
      }
    }
  }

  lemma UnfaithfulStep(s: Store, op: Op)
    requires Inv(s) && !Faithful(s, op)
    ensures Meaning(Step(s, op)) != PlainStep(Meaning(s), s.closed, op)
  {
    var t := Step(s, op);
    if op.Save? {
      MeaningAt(t, op.v);
      ViewEnqueue(s, map[op.v := None], op.v);
      assert op.v in Meaning(t);
    } else {
      var v := Pick(Lost(s, op.scan));
      MeaningAt(s, v);
      MeaningAt(t, v);
      assert v in Meaning(s) && v !in Meaning(t);
    }
  }

  /** Each operation does to the store what it does to the plain map, exactly when it is faithful. */
  lemma StepRefines(s: Store, op: Op)
    requires Inv(s)
    ensures Faithful(s, op) ==> Inv(Step(s, op))
    ensures Meaning(Step(s, op)) == PlainStep(Meaning(s), s.closed, op) <==> Faithful(s, op)
  {
    if Faithful(s, op) {
      FaithfulStep(s, op);
      FaithfulKeepsInv(s, op);
    } else {
      UnfaithfulStep(s, op);
    }
  }

  lemma ViewAfterStep(s: Store, op: Op, v: int)
    requires Inv(s) && Faithful(s, op)
    ensures View(Step(s, op), v) ==
            if op.Save? && op.v == v && !s.closed then Payload(op.ms) else View(s, v)
  {
    match op
    case Save(w, ms) => ViewEnqueue(s, map[w := Payload(ms)], v);
    case Load(w, bad) => ViewLoad(s, {w}, bad, v);
    case Warming(scan) => assert v !in Lost(s, scan);
    case Flushing(fails) => ViewFlush(s, fails, v);
    case Close(fails) => ViewFlush(s.(closed := true), fails, v);
  }

  function Run(s: Store, ops: seq<Op>): Store
    decreases ops
  {
    if ops == [] then s else Run(Step(s, ops[0]), ops[1..])
  }

  function PlainRun(m: map<int, Bytes>, closed: bool, ops: seq<Op>): map<int, Bytes>
    decreases ops
  {
    if ops == [] then m else PlainRun(PlainStep(m, closed, ops[0]), closed || ops[0].Close?, ops[1..])
  }

  predicate AllFaithful(s: Store, ops: seq<Op>)
    decreases ops
  {
    ops == [] || (Faithful(s, ops[0]) && AllFaithful(Step(s, ops[0]), ops[1..]))
  }

  lemma OneRefines(s: Store, op: Op)
    requires Inv(s) && Faithful(s, op)
    ensures var t := Step(s, op);
            Inv(t) && Meaning(t) == PlainStep(Meaning(s), s.closed, op) && t.closed == (s.closed || op.Close?)
  {
    StepRefines(s, op);
  }

  lemma {:induction false} RunRefinesFrom(s: Store, ops: seq<Op>)
    requires Inv(s) && AllFaithful(s, ops)
    ensures Inv(Run(s, ops))
    ensures Meaning(Run(s, ops)) == PlainRun(Meaning(s), s.closed, ops)
    decreases ops
  {
    if ops != [] {
      OneRefines(s, ops[0]);
      RunRefinesFrom(Step(s, ops[0]), ops[1..]);
    }
  }

  /** Over any history of one process, the store is the plain map that started as the directory. */
  lemma RunRefines(files: map<int, Bytes>, ops: seq<Op>)
    requires AllFaithful(Fresh(files), ops)
    ensures Meaning(Run(Fresh(files), ops)) == PlainRun(files, false, ops)
    ensures Inv(Run(Fresh(files), ops))
  {
    MeaningIs(Fresh(files), files);
    RunRefinesFrom(Fresh(files), ops);
  }

  /** load answers from the map; only a read that has to go to disk and fails says otherwise. */
  lemma LoadAnswers(s: Store, v: int, bad: set<int>)
    ensures LoadResultOf(s, v, bad) ==
            if v in Misses(s, {v}) && v in bad then Error
            else if v in Meaning(s) then Decode(Meaning(s)[v]) else Absent
  {
    MeaningAt(s, v);
  }

  /**
   After a scan a load needs no disk: it gives what is queued or else what the file holds
   and, of the files the scan could not read or would not look at, only those known before.
   */
  lemma WarmSees(s: Store, bad: set<int>, v: int, noRead: set<int>)
    requires CacheTrue(s)
    ensures LoadResultOf(Warm(s, Listed(bad)), v, noRead) ==
            if v in s.pending then DecodeOpt(s.pending[v])
            else if v in s.files && (v in s.known || (v > 0 && v !in bad)) then Decode(s.files[v])
            else Absent
  {
  }

  /** A scan loses a file exactly if nothing but the disk had it, and the scan did not read it. */
  lemma LostIs(s: Store, bad: set<int>, v: int)
    ensures v in Lost(s, Listed(bad)) <==>
            !s.scanned && v in s.files && v !in s.known && v !in s.pending && (v <= 0 || v in bad)
  {
  }

  /** A flush that reports success leaves the directory equal to the map and nothing queued. */
  lemma FlushDrains(s: Store, fails: map<int, Option<Bytes>>)
    requires Inv(s)
    ensures FlushOk(s, fails) <==> Flush(s, fails).pending == map[]
    ensures FlushOk(s, fails) ==> Flush(s, fails).files == Meaning(s)
    ensures Meaning(Flush(s, fails)) == Meaning(s)
  {
    var t := Flush(s, fails);
    forall v ensures View(t, v) == View(s, v) { ViewFlush(s, fails, v); }
    SameViewsSameMeaning(s, t);
    if FlushOk(s, fails) {
      assert t.pending == map[];
      FlushedFiles(s, fails);
    } else {
      var v :| v in s.pending && v in fails;
      assert v in t.pending;
    }
  }

  lemma FlushedFiles(s: Store, fails: map<int, Option<Bytes>>)
    requires Inv(s) && FlushOk(s, fails)
    ensures Flush(s, fails).files == Meaning(s)
  {
    var t := Flush(s, fails);
    forall v ensures View(s, v) == if v in t.files then Some(t.files[v]) else None {
      assert v in s.known ==> CacheAt(s, v) == FileAt(s, v);
    }
    MeaningIs(s, t.files);
  }

  /** Saving what the map already holds queues nothing, provided the disk copy is known. */
  lemma UnchangedSaveIsFree(s: Store, v: int, ms: seq<Mapping>)
    requires Inv(s) && ms != [] && (v in s.pending || v in s.known)
    ensures Step(s, Save(v, ms)) == s || View(s, v) != Some(Encode(ms))
  {
    assert EnqueueAll(s, map[v := Payload(ms)]).pending == s.pending || View(s, v) != Some(Encode(ms));
  }

  /** An empty file is the one thing a delete cannot remove: nil and empty compare equal. */
  lemma EmptyFileSurvivesDelete()
    ensures var s := Warm(Fresh(map[7 := Bytes(Empty, 0)]), Listed({}));
            && Step(s, Save(7, [])) == s
            && LoadResultOf(Step(s, Save(7, [])), 7, {}) == Error
            && Flush(Step(s, Save(7, [])), map[]).files == map[7 := Bytes(Empty, 0)]
  {
    var s := Warm(Fresh(map[7 := Bytes(Empty, 0)]), Listed({}));
    assert 7 in s.known && CacheAt(s, 7) == Some(Bytes(Empty, 0));
    assert Step(s, Save(7, [])).pending == s.pending;
    assert Flush(s, map[]).files == s.files;
  }
}
