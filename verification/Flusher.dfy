/**
 The backup store at lock and channel granularity: callers of enqueue, load and close, the
 scan of the directory and the flusher goroutine, interleaved in any order. The wake channel
 holds one token; stop and done are only ever closed, so they are counted. load and the scan
 read files with no lock held and install what they read afterwards.
 */
module Flusher {

  datatype Data = Tombstone | Content(id: int)

  /** A caller of enqueue after it has released the lock. */
  datatype Writer = Idle | Spawning | Signalling

  datatype Closer = NotClosing | Draining | Stopping | Waiting | Returned(clean: bool)

  /** A caller of load that has to go to disk: before and after it has read the file. */
  datatype Read = Missed(v: int) | Holding(v: int, data: Data)

  /** Whether the directory has been scanned, the loads under way, and what a scan under way has read. */
  datatype Reading = Reading(scanned: bool, readers: map<int, Read>, loaded: map<int, Data>)

  /** Where the flusher goroutine is. final marks the flush that follows stop. */
  datatype Phase =
    | Unborn
    | Selecting
    | Debouncing
    | TakingBatch(final: bool)
    | Writing(final: bool, todo: map<int, Data>, ok: bool)
    | Recording(final: bool, todo: map<int, Data>, ok: bool, v: int, data: Data, wrote: bool)
    | Rearming
    | Finishing
    | Exited

  /** accepted is history: the last value enqueue took for each VM. */
  datatype State = State(
    pending: map<int, Data>,
    cache: map<int, Data>,
    disk: map<int, Data>,
    started: bool,
    closed: bool,
    wake: bool,
    spawns: nat,
    stops: nat,
    dones: nat,
    phase: Phase,
    writers: map<int, Writer>,
    closers: map<int, Closer>,
    accepted: map<int, Data>,
    io: Reading)

  function Init(cache: map<int, Data>, disk: map<int, Data>, scanned: bool): State {
    State(map[], cache, disk, false, false, false, 0, 0, 0, Unborn, map[], map[], map[], Reading(scanned, map[], map[]))
  }

  function WriterAt(s: State, t: int): Writer {
    if t in s.writers then s.writers[t] else Idle
  }

  function CloserAt(s: State, t: int): Closer {
    if t in s.closers then s.closers[t] else NotClosing
  }

  function DiskAt(s: State, v: int): Data {
    if v in s.disk then s.disk[v] else Tombstone
  }

  /** Taken out of pending and not yet recorded. */
  function InFlight(p: Phase): map<int, Data> {
    match p
    case Writing(_, todo, _) => todo
    case Recording(_, todo, _, v, data, _) => todo[v := data]
    case _ => map[]
  }

  datatype Act =
    | Enqueue(t: int, v: int, data: Data)
    | Spawn(t: int)
    | Signal(t: int)
    | TakeWake
    | TakeStop
    | TimerFires
    | StopWhileDebouncing
    | TakeBatch
    | Write(v: int, garbage: seq<Data>)  // empty: the write succeeds; else it fails leaving garbage[0]
    | Record
    | EndFlush
    | Rearm
    | CloseDone
    | CallClose(t: int)
    | Drain(t: int)
    | CloseStop(t: int)
    | SeeDone(t: int)
    | GiveUp(t: int)
    | LookUp(t: int, v: int)
    | ReadFile(t: int, ok: bool)
    | Install(t: int)
    | ScanFile(v: int)
    | ScanFails
    | MergeScan

  predicate Enabled(s: State, a: Act) {
    match a
    case Enqueue(t, _, _) => WriterAt(s, t).Idle?
    case Spawn(t) => WriterAt(s, t).Spawning?
    case Signal(t) => WriterAt(s, t).Signalling?
    case TakeWake => s.phase.Selecting? && s.wake
    case TakeStop => s.phase.Selecting? && s.stops > 0
    case TimerFires => s.phase.Debouncing?
    case StopWhileDebouncing => s.phase.Debouncing? && s.stops > 0
    case TakeBatch => s.phase.TakingBatch?
    case Write(v, _) => s.phase.Writing? && v in s.phase.todo
    case Record => s.phase.Recording?
    case EndFlush => s.phase.Writing? && s.phase.todo == map[]
    case Rearm => s.phase.Rearming?
    case CloseDone => s.phase.Finishing?
    case CallClose(t) => CloserAt(s, t).NotClosing? || CloserAt(s, t).Returned?
    case Drain(t) => CloserAt(s, t).Draining? && s.pending == map[]
    case CloseStop(t) => CloserAt(s, t).Stopping?
    case SeeDone(t) => CloserAt(s, t).Waiting? && s.dones > 0
    case GiveUp(t) => CloserAt(s, t).Waiting?
    case LookUp(t, v) => t !in s.io.readers && v !in s.pending && v !in s.cache && !s.io.scanned
    case ReadFile(t, _) => t in s.io.readers && s.io.readers[t].Missed?
    case Install(t) => t in s.io.readers && s.io.readers[t].Holding?
    case ScanFile(v) => v > 0 && DiskAt(s, v).Content?
    case ScanFails => true
    case MergeScan => true
  }

  function Without(m: map<int, Data>, v: int): map<int, Data> {
    m - {v}
  }

  /** Queue a failed write again, unless a newer value superseded it. */
  function Requeue(pending: map<int, Data>, v: int, data: Data): map<int, Data> {
    if v in pending then pending else pending[v := data]
  }

  function AfterFlush(final: bool, ok: bool): Phase {
    if final then Finishing else if ok then Selecting else Rearming
  }

  /** enqueue's own test: already queued, or not queued and already on disk. */
  predicate Dropped(s: State, v: int, data: Data) {
    if v in s.pending then s.pending[v] == data else v in s.cache && s.cache[v] == data
  }

  predicate ByReader(a: Act) {
    a.LookUp? || a.ReadFile? || a.Install? || a.ScanFile? || a.ScanFails? || a.MergeScan?
  }

  /** load from disk in three steps, and the scan file by file; queued writes are newer than anything scanned. */
  ghost predicate ReadStep(s: State, a: Act, n: State)
    requires Enabled(s, a)
  {
    match a
    case LookUp(t, v) => n == s.(io := s.io.(readers := s.io.readers[t := Missed(v)]))
    case ReadFile(t, ok) =>
      var v := s.io.readers[t].v;
      n == s.(io := s.io.(readers := if ok then s.io.readers[t := Holding(v, DiskAt(s, v))] else s.io.readers - {t}))
    case Install(t) =>
      var r := s.io.readers[t];
      n == s.(cache := s.cache[r.v := r.data], io := s.io.(readers := s.io.readers - {t}))
    case ScanFile(v) => n == s.(io := s.io.(loaded := s.io.loaded[v := DiskAt(s, v)]))
    case ScanFails => n == s.(io := s.io.(loaded := map[]))
    case MergeScan =>
      n == s.(cache := s.cache + (s.io.loaded - s.pending.Keys), io := s.io.(scanned := true, loaded := map[]))
    case _ => false
  }

  /** One indivisible step: a critical section, a channel operation or one file access. Only Write touches a file. */
  ghost predicate Step(s: State, a: Act, n: State) {
    && Enabled(s, a)
    && (a.Write? || n.disk == s.disk)
    && if ByReader(a) then ReadStep(s, a, n) else MainStep(s, a, n) && n.io == s.io
  }

  ghost predicate MainStep(s: State, a: Act, n: State)
    requires Enabled(s, a)
  {
    match a
    case Enqueue(t, v, data) =>
      var drop := s.closed || Dropped(s, v, data);
      && (drop ==> n == s)
      && (!drop ==> n == s.(pending := s.pending[v := data], accepted := s.accepted[v := data], started := true,
                            writers := s.writers[t := if s.started then Signalling else Spawning]))
    case Spawn(t) =>
      n == s.(spawns := s.spawns + 1, phase := if s.phase.Unborn? then Selecting else s.phase,
              writers := s.writers[t := Signalling])
    case Signal(t) => n == s.(wake := true, writers := s.writers[t := Idle])
    case TakeWake => n == s.(wake := false, phase := Debouncing)
    case TakeStop => n == s.(phase := TakingBatch(true))
    case TimerFires => n == s.(phase := TakingBatch(false))
    case StopWhileDebouncing => n == s.(phase := TakingBatch(true))
    case TakeBatch =>
      n == s.(pending := map[],
              phase := if s.pending == map[] then AfterFlush(s.phase.final, true)
                       else Writing(s.phase.final, s.pending, true))
    case Write(v, garbage) =>
      n == s.(disk := s.disk[v := if garbage == [] then s.phase.todo[v] else garbage[0]],
              phase := Recording(s.phase.final, Without(s.phase.todo, v), s.phase.ok, v, s.phase.todo[v],
                                 garbage == []))
    case Record =>
      var p := s.phase;
      n == s.(cache := if p.wrote then s.cache[p.v := p.data] else Without(s.cache, p.v),
              pending := if p.wrote then s.pending else Requeue(s.pending, p.v, p.data),
              phase := Writing(p.final, p.todo, p.ok && p.wrote))
    case EndFlush => n == s.(phase := AfterFlush(s.phase.final, s.phase.ok))
    case Rearm => n == s.(wake := true, phase := Selecting)
    case CloseDone => n == s.(dones := s.dones + 1, phase := Exited)
    case CallClose(t) =>
      n == s.(closed := true,
              closers := s.closers[t := if !s.started then Draining else if s.closed then Waiting else Stopping])
    case Drain(t) => n == s.(closers := s.closers[t := Returned(true)])
    case CloseStop(t) => n == s.(stops := s.stops + 1, closers := s.closers[t := Waiting])
    case SeeDone(t) => n == s.(closers := s.closers[t := Returned(s.pending == map[])])
    case GiveUp(t) => n == s.(closers := s.closers[t := Returned(false)])
    case _ => false
  }

  // ---- Invariants ----

  /** One flusher: either it runs, or exactly one caller is about to start it, or nothing was ever queued. */
  ghost predicate BirthInv(s: State) {
    && (s.phase.Unborn? <==> s.spawns == 0)
    && s.spawns <= 1
    && (forall t, u | t in s.writers && u in s.writers ::
          s.writers[t].Spawning? && s.writers[u].Spawning? ==> t == u)
    && (forall t | t in s.writers :: s.writers[t].Spawning? ==> s.phase.Unborn?)
    && (s.started && s.phase.Unborn? ==> exists t :: t in s.writers && s.writers[t].Spawning?)
    && (!s.started ==> s.phase.Unborn? && s.pending == map[] && s.accepted == map[])
    && (!s.started ==> forall t | t in s.writers :: s.writers[t].Idle?)
  }

  predicate Stopped(p: Phase) {
    match p
    case TakingBatch(final) => final
    case Writing(final, _, _) => final
    case Recording(final, _, _, _, _, _) => final
    case Finishing => true
    case Exited => true
    case _ => false
  }

  /** stop and done are closed at most once, and only in this order. */
  ghost predicate CloseInv(s: State) {
    && s.stops <= 1 && s.dones <= 1
    && (s.dones == 1 <==> s.phase.Exited?)
    && (Stopped(s.phase) ==> s.stops == 1)
    && (s.stops == 1 ==> s.closed && s.started)
    && (forall t, u | t in s.closers && u in s.closers ::
          s.closers[t].Stopping? && s.closers[u].Stopping? ==> t == u)
    && (forall t | t in s.closers :: s.closers[t].Stopping? ==> s.stops == 0 && s.closed && s.started)
    && (forall t | t in s.closers :: s.closers[t].Draining? ==> s.closed && !s.started)
    && (forall t | t in s.closers :: s.closers[t].Waiting? ==> s.closed && s.started)
    && (forall t | t in s.closers :: s.closers[t] == Returned(true) ==>
          s.closed && (!s.started || (s.phase.Exited? && s.pending == map[])))
  }

  /** Someone still owes the flusher a look at pending. */
  ghost predicate Owed(s: State) {
    || s.wake
    || s.phase.Debouncing? || s.phase.TakingBatch? || s.phase.Rearming?
    || (s.phase.Writing? && !s.phase.ok)
    || (s.phase.Recording? && !s.phase.ok)
    || exists t :: t in s.writers && !s.writers[t].Idle?
  }

  ghost predicate WakeInv(s: State) {
    s.pending != map[] && s.stops == 0 ==> Owed(s)
  }

  /** The value v is on its way to: queued, else in flight, else on disk. */
  function Target(s: State, v: int): Data {
    if v in s.pending then s.pending[v]
    else if v in InFlight(s.phase) then InFlight(s.phase)[v]
    else DiskAt(s, v)
  }

  ghost predicate Delivered(s: State) {
    forall v | v in s.accepted :: Target(s, v) == s.accepted[v]
  }

  predicate RecordingInv(s: State) {
    s.phase.Recording? ==>
      s.phase.v !in s.phase.todo && (s.phase.wrote ==> DiskAt(s, s.phase.v) == s.phase.data)
  }

  /** Nothing accepted is ever lost: it is queued, in flight or on disk. */
  ghost predicate LedgerInv(s: State) {
    && Delivered(s)
    && (forall v | v in s.pending :: v in s.accepted)
    && (forall v | v in InFlight(s.phase) :: v in s.accepted)
    && RecordingInv(s)
  }

  ghost predicate Inv(s: State) {
    BirthInv(s) && CloseInv(s) && WakeInv(s) && LedgerInv(s)
  }

  lemma InitInv(cache: map<int, Data>, disk: map<int, Data>, scanned: bool)
    ensures Inv(Init(cache, disk, scanned))
  {
  }

  /** Reading changes nothing but the cached copies and what has been read. */
  lemma ReaderFrame(s: State, a: Act, n: State)
    requires Step(s, a, n) && ByReader(a)
    ensures n == s.(cache := n.cache, io := n.io)
  {
  }

  predicate ByWriter(a: Act) {
    a.Enqueue? || a.Spawn? || a.Signal?
  }

  predicate ByCloser(a: Act) {
    a.CallClose? || a.Drain? || a.CloseStop? || a.SeeDone? || a.GiveUp?
  }

  /** A closer touches nothing but what closing is about. */
  lemma CloserFrame(s: State, a: Act, n: State)
    requires Step(s, a, n) && ByCloser(a)
    ensures n == s.(closed := n.closed, stops := n.stops, closers := n.closers) && (s.closed ==> n.closed)
  {
    assert MainStep(s, a, n);
  }

  /** Whoever neither reads, queues, takes, writes nor records leaves data alone. */
  lemma DataFrame(s: State, a: Act, n: State)
    requires Step(s, a, n) && !ByReader(a) && !a.Enqueue? && !a.Write? && !a.Record? && !a.TakeBatch?
    ensures n.pending == s.pending && n.cache == s.cache && n.disk == s.disk && n.accepted == s.accepted
    ensures InFlight(n.phase) == InFlight(s.phase)
  {
    assert MainStep(s, a, n);
  }

  /** Whoever neither reads, queues nor closes accepts nothing and leaves closing alone. */
  lemma RestFrame(s: State, a: Act, n: State)
    requires Step(s, a, n) && !ByReader(a) && !ByCloser(a) && !a.Enqueue?
    ensures n.accepted == s.accepted && n.closed == s.closed
  {
    if a.Spawn? || a.Signal? {
      SignalFrame(s, a, n);
    } else {
      FlusherKeeps(s, a, n);
    }
  }

  lemma SignalFrame(s: State, a: Act, n: State)
    requires Enabled(s, a) && MainStep(s, a, n) && (a.Spawn? || a.Signal?)
    ensures n == s.(spawns := n.spawns, wake := n.wake, phase := n.phase, writers := n.writers)
  {
  }

  lemma FlusherKeeps(s: State, a: Act, n: State)
    requires Enabled(s, a) && MainStep(s, a, n) && !ByWriter(a) && !ByCloser(a)
    ensures n == s.(pending := n.pending, cache := n.cache, disk := n.disk, wake := n.wake, dones := n.dones,
                    phase := n.phase)
  {
  }

  lemma TakeFrame(s: State, a: Act, n: State)
    requires Step(s, a, n) && a.TakeBatch?
    ensures n == s.(pending := map[], phase := n.phase) && InFlight(s.phase) == map[] && InFlight(n.phase) == s.pending
  {
    assert MainStep(s, a, n);
  }

  lemma EnqueueFrame(s: State, a: Act, n: State)
    requires Step(s, a, n) && a.Enqueue?
    ensures n == s.(pending := n.pending, accepted := n.accepted, started := n.started, writers := n.writers)
    ensures s.closed || Dropped(s, a.v, a.data) ==> n == s
    ensures !s.closed && !Dropped(s, a.v, a.data) ==>
              n.pending == s.pending[a.v := a.data] && n.accepted == s.accepted[a.v := a.data]
  {
    assert MainStep(s, a, n);
  }

  lemma WriterBirth(s: State, a: Act, n: State)
    requires BirthInv(s) && Step(s, a, n) && !ByReader(a) && ByWriter(a)
    ensures BirthInv(n)
  {
    if a.Enqueue? && n != s && !s.started {
      assert n.writers[a.t].Spawning?;
    } else if s.started && n.phase.Unborn? {
      var t :| t in s.writers && s.writers[t].Spawning?;
      assert n.writers[t].Spawning?;
    }
  }

  /** What the steps of the flusher and of closers leave alone. */
  ghost predicate NoBirth(s: State, n: State) {
    && n.writers == s.writers && n.started == s.started && n.spawns == s.spawns && n.accepted == s.accepted
    && (n.phase.Unborn? <==> s.phase.Unborn?)
    && (!s.started ==> n.pending == map[])
  }

  lemma FlusherBears(s: State, a: Act, n: State)
    requires !s.started ==> s.phase.Unborn? && s.pending == map[]
    requires Step(s, a, n) && !ByReader(a) && !ByWriter(a) && !ByCloser(a)
    ensures NoBirth(s, n)
  {
  }

  lemma CloserBears(s: State, a: Act, n: State)
    requires !s.started ==> s.phase.Unborn? && s.pending == map[]
    requires Step(s, a, n) && !ByReader(a) && ByCloser(a)
    ensures NoBirth(s, n)
  {
    CloserFrame(s, a, n);
  }

  lemma OtherBirth(s: State, n: State)
    requires BirthInv(s) && NoBirth(s, n)
    ensures BirthInv(n)
  {
    if n.started && n.phase.Unborn? {
      var t :| t in s.writers && s.writers[t].Spawning?;
      assert n.writers[t].Spawning?;
    }
  }

  lemma BirthStep(s: State, a: Act, n: State)
    requires BirthInv(s) && CloseInv(s) && Step(s, a, n) && !ByReader(a)
    ensures BirthInv(n)
  {
    if ByWriter(a) {
      WriterBirth(s, a, n);
    } else {
      if ByCloser(a) { CloserBears(s, a, n); } else { FlusherBears(s, a, n); }
      OtherBirth(s, n);
    }
  }

  lemma CallCloses(s: State, a: Act, n: State)
    requires CloseInv(s) && Step(s, a, n) && a.CallClose?
    ensures CloseInv(n)
  {
    assert MainStep(s, a, n);
  }

  lemma StopCloses(s: State, a: Act, n: State)
    requires CloseInv(s) && Step(s, a, n) && a.CloseStop?
    ensures CloseInv(n)
  {
    assert MainStep(s, a, n);
  }

  lemma ReturnCloses(s: State, a: Act, n: State)
    requires CloseInv(s) && Step(s, a, n) && (a.Drain? || a.SeeDone? || a.GiveUp?)
    ensures CloseInv(n)
  {
    assert n == s.(closers := s.closers[a.t := n.closers[a.t]]) && n.closers[a.t].Returned?;
    assert n.closers[a.t] == Returned(true) ==> s.closed && (!s.started || (s.phase.Exited? && s.pending == map[]));
  }

  lemma CloserStep(s: State, a: Act, n: State)
    requires CloseInv(s) && Step(s, a, n) && !ByReader(a) && ByCloser(a)
    ensures CloseInv(n)
  {
    if a.CallClose? {
      CallCloses(s, a, n);
    } else if a.CloseStop? {
      StopCloses(s, a, n);
    } else {
      ReturnCloses(s, a, n);
    }
  }

  lemma WriterCloses(s: State, a: Act, n: State)
    requires BirthInv(s) && CloseInv(s) && Step(s, a, n) && !ByReader(a) && ByWriter(a)
    ensures CloseInv(n)
  {
    assert n.closers == s.closers && n.closed == s.closed && n.stops == s.stops && n.dones == s.dones;
  }

  /** How far the flusher moves what the closing protocol looks at. */
  ghost predicate FlusherMoves(s: State, n: State) {
    && n.closers == s.closers && n.closed == s.closed && n.stops == s.stops && n.started == s.started
    && (if s.phase.Finishing? && n.phase.Exited? then n.dones == s.dones + 1
        else n.dones == s.dones && (n.phase.Exited? <==> s.phase.Exited?))
    && (Stopped(n.phase) ==> Stopped(s.phase) || s.stops > 0)
    && (s.phase.Exited? ==> n.phase == s.phase && n.pending == s.pending)
  }

  lemma FlusherFrame(s: State, a: Act, n: State)
    requires Step(s, a, n) && !ByReader(a) && !ByWriter(a) && !ByCloser(a)
    ensures FlusherMoves(s, n)
  {
  }

  lemma FlusherCloses(s: State, n: State)
    requires CloseInv(s) && FlusherMoves(s, n)
    ensures CloseInv(n)
  {
  }

  lemma CloseStep(s: State, a: Act, n: State)
    requires BirthInv(s) && CloseInv(s) && Step(s, a, n) && !ByReader(a)
    ensures CloseInv(n)
  {
    if ByCloser(a) {
      CloserStep(s, a, n);
    } else if ByWriter(a) {
      WriterCloses(s, a, n);
    } else {
      FlusherFrame(s, a, n);
      FlusherCloses(s, n);
    }
  }

  lemma WriterWakes(s: State, a: Act, n: State)
    requires WakeInv(s) && Step(s, a, n) && ByWriter(a)
    ensures WakeInv(n)
  {
    if !a.Signal? && n != s {
      assert !n.writers[a.t].Idle?;
    }
  }

  /** The flusher leaves callers alone, so whoever is about to signal still is. */
  lemma CallersStand(s: State, n: State)
    requires n.writers == s.writers && exists t :: t in s.writers && !s.writers[t].Idle?
    ensures Owed(n)
  {
    var t :| t in s.writers && !s.writers[t].Idle?;
    assert !n.writers[t].Idle?;
  }

  lemma FlusherWakes(s: State, a: Act, n: State)
    requires CloseInv(s) && WakeInv(s) && Step(s, a, n) && !ByReader(a) && !ByWriter(a) && !ByCloser(a)
    ensures WakeInv(n)
  {
    FlusherKeeps(s, a, n);
    if exists t :: t in s.writers && !s.writers[t].Idle? {
      CallersStand(s, n);
    } else {
      FlusherOwes(s, a, n);
    }
  }

  lemma FlusherOwes(s: State, a: Act, n: State)
    requires CloseInv(s) && WakeInv(s) && !exists t :: t in s.writers && !s.writers[t].Idle?
    requires Enabled(s, a) && MainStep(s, a, n) && !ByWriter(a) && !ByCloser(a)
    ensures WakeInv(n)
  {
  }

  lemma WakeStep(s: State, a: Act, n: State)
    requires Inv(s) && Step(s, a, n) && !ByReader(a)
    ensures WakeInv(n)
  {
    if ByWriter(a) {
      WriterWakes(s, a, n);
    } else if ByCloser(a) {
      CloserFrame(s, a, n);
      CloserStep(s, a, n);
    } else {
      FlusherWakes(s, a, n);
    }
  }

  lemma WriteKeepsTargets(s: State, a: Act, n: State, v: int)
    requires RecordingInv(s) && Step(s, a, n) && !ByReader(a) && a.Write?
    ensures Target(n, v) == Target(s, v)
  {
    assert InFlight(n.phase) == InFlight(s.phase);
  }

  lemma RecordKeepsTargets(s: State, a: Act, n: State, v: int)
    requires RecordingInv(s) && Step(s, a, n) && !ByReader(a) && a.Record?
    ensures Target(n, v) == Target(s, v)
  {
  }

  lemma TakingKeepsTargets(s: State, a: Act, n: State, v: int)
    requires Step(s, a, n) && a.TakeBatch?
    ensures Target(n, v) == Target(s, v)
  {
    TakeFrame(s, a, n);
  }

  /** Only enqueue gives a VM a new target; no flush, failure or requeue does. */
  lemma OnlyEnqueueRetargets(s: State, a: Act, n: State, v: int)
    requires LedgerInv(s) && Step(s, a, n) && !a.Enqueue?
    ensures Target(n, v) == Target(s, v)
  {
    if ByReader(a) {
      ReaderFrame(s, a, n);
    } else if a.Write? {
      WriteKeepsTargets(s, a, n, v);
    } else if a.Record? {
      RecordKeepsTargets(s, a, n, v);
    } else if a.TakeBatch? {
      TakingKeepsTargets(s, a, n, v);
    } else {
      DataFrame(s, a, n);
    }
  }

  lemma RecordKeys(s: State, a: Act, n: State, v: int)
    requires Step(s, a, n) && a.Record?
    ensures v in n.pending || v in InFlight(n.phase) ==> v in s.pending || v in InFlight(s.phase)
    ensures n.accepted == s.accepted
  {
  }

  lemma TakeKeys(s: State, a: Act, n: State, v: int)
    requires Step(s, a, n) && a.TakeBatch?
    ensures v in n.pending || v in InFlight(n.phase) ==> v in s.pending
    ensures n.accepted == s.accepted
  {
    TakeFrame(s, a, n);
  }

  lemma WriteKeys(s: State, a: Act, n: State)
    requires Step(s, a, n) && a.Write?
    ensures n.pending == s.pending && InFlight(n.phase) == InFlight(s.phase) && n.accepted == s.accepted
  {
    assert InFlight(n.phase) == InFlight(s.phase);
  }

  lemma KeysStep(s: State, a: Act, n: State, v: int)
    requires LedgerInv(s) && Step(s, a, n) && !ByReader(a)
    ensures v in n.pending || v in InFlight(n.phase) ==> v in n.accepted
  {
    if a.Record? {
      RecordKeys(s, a, n, v);
    } else if a.TakeBatch? {
      TakeKeys(s, a, n, v);
    } else if a.Write? {
      WriteKeys(s, a, n);
    } else if a.Enqueue? {
      EnqueueFrame(s, a, n);
    } else {
      DataFrame(s, a, n);
    }
  }

  lemma WriteAwaitsRecord(s: State, a: Act, n: State)
    requires Step(s, a, n) && a.Write?
    ensures RecordingInv(n)
  {
  }

  lemma OthersWriteNothing(s: State, a: Act, n: State)
    requires Step(s, a, n) && !ByReader(a) && !a.Write?
    ensures n.disk == s.disk && (n.phase.Recording? ==> n.phase == s.phase)
  {
    assert MainStep(s, a, n);
  }

  lemma RecordingStep(s: State, a: Act, n: State)
    requires RecordingInv(s) && Step(s, a, n)
    ensures RecordingInv(n)
  {
    if a.Write? {
      WriteAwaitsRecord(s, a, n);
    } else if ByReader(a) {
      ReaderFrame(s, a, n);
    } else {
      OthersWriteNothing(s, a, n);
    }
  }

  lemma DeliveredStep(s: State, a: Act, n: State)
    requires LedgerInv(s) && Step(s, a, n) && !ByReader(a)
    ensures Delivered(n)
  {
    if a.Enqueue? {
      EnqueueFrame(s, a, n);
    } else {
      AcceptsNothing(s, a, n);
      forall v ensures Target(n, v) == Target(s, v) { OnlyEnqueueRetargets(s, a, n, v); }
    }
  }

  lemma AcceptsNothing(s: State, a: Act, n: State)
    requires Step(s, a, n) && !ByReader(a) && !a.Enqueue?
    ensures n.accepted == s.accepted
  {
    if ByCloser(a) {
      CloserFrame(s, a, n);
    } else {
      RestFrame(s, a, n);
    }
  }

  lemma LedgerStep(s: State, a: Act, n: State)
    requires LedgerInv(s) && Step(s, a, n) && !ByReader(a)
    ensures LedgerInv(n)
  {
    DeliveredStep(s, a, n);
    forall v ensures v in n.pending || v in InFlight(n.phase) ==> v in n.accepted { KeysStep(s, a, n, v); }
    RecordingStep(s, a, n);
  }

  lemma InvStep(s: State, a: Act, n: State)
    requires Inv(s) && Step(s, a, n)
    ensures Inv(n)
  {
    if ByReader(a) {
      ReaderFrame(s, a, n);
    } else {
      BirthStep(s, a, n);
      CloseStep(s, a, n);
      WakeStep(s, a, n);
      LedgerStep(s, a, n);
    }
  }

  // ---- Whole runs ----

  ghost predicate CanStep(s: State, n: State) {
    exists a :: Step(s, a, n)
  }

  ghost predicate Initial(s: State) {
    && s == Init(s.cache, s.disk, s.io.scanned)
    && forall v | v in s.cache :: s.cache[v] == DiskAt(s, v)
  }

  /** An interleaving of any callers of enqueue and close with the flusher. */
  ghost predicate IsRun(ss: seq<State>) {
    && ss != []
    && Initial(ss[0])
    && Chain(ss)
  }

  ghost predicate Chain(ss: seq<State>) {
    forall i, j {:trigger CanStep(ss[i], ss[j])} | 0 <= i < j < |ss| && j == i + 1 :: CanStep(ss[i], ss[j])
  }

  lemma InvCanStep(s: State, n: State)
    requires Inv(s) && CanStep(s, n)
    ensures Inv(n)
  {
    var a :| Step(s, a, n);
    InvStep(s, a, n);
  }

  lemma {:induction false} RunInv(ss: seq<State>, i: nat)
    requires IsRun(ss) && i < |ss|
    ensures Inv(ss[i])
  {
    if i == 0 {
      InitInv(ss[0].cache, ss[0].disk, ss[0].io.scanned);
    } else {
      RunInv(ss, i - 1);
      InvCanStep(ss[i - 1], ss[i]);
    }
  }

  /** While the store is not stopped, queued work always has someone committed to it. */
  lemma NoLostWakeup(ss: seq<State>, i: nat)
    requires IsRun(ss) && i < |ss|
    requires ss[i].pending != map[] && ss[i].stops == 0
    ensures Owed(ss[i])
  {
    RunInv(ss, i);
  }

  /** Once the flusher sleeps with no token and no caller about to signal, every accepted write is on disk. */
  lemma QuietMeansWritten(ss: seq<State>, i: nat)
    requires IsRun(ss) && i < |ss|
    requires ss[i].phase.Selecting? && !ss[i].wake && ss[i].stops == 0
    requires forall t | t in ss[i].writers :: ss[i].writers[t].Idle?
    ensures ss[i].pending == map[]
    ensures forall v | v in ss[i].accepted :: DiskAt(ss[i], v) == ss[i].accepted[v]
  {
    RunInv(ss, i);
    assert forall v | v in ss[i].accepted :: Target(ss[i], v) == DiskAt(ss[i], v);
  }

  /** One flusher, one close of each channel, and nothing queued before the flusher is on its way. */
  lemma OneOfEach(ss: seq<State>, i: nat)
    requires IsRun(ss) && i < |ss|
    ensures ss[i].spawns <= 1 && ss[i].stops <= 1 && ss[i].dones <= 1
    ensures !ss[i].started ==> ss[i].pending == map[] && ss[i].spawns == 0
    ensures ss[i].dones == 1 ==> ss[i].stops == 1
  {
    RunInv(ss, i);
  }

  lemma ClosedByStep(s: State, a: Act, n: State)
    requires s.closed && Step(s, a, n)
    ensures n.closed && n.accepted == s.accepted
  {
    if ByReader(a) {
      ReaderFrame(s, a, n);
    } else if a.Enqueue? {
      EnqueueFrame(s, a, n);
    } else if ByCloser(a) {
      CloserFrame(s, a, n);
    } else {
      RestFrame(s, a, n);
    }
  }

  lemma ClosedStep(s: State, n: State)
    requires s.closed && CanStep(s, n)
    ensures n.closed && n.accepted == s.accepted
  {
    var a :| Step(s, a, n);
    ClosedByStep(s, a, n);
  }

  lemma {:induction false} NothingAcceptedAfterClose(ss: seq<State>, i: nat, j: nat)
    requires IsRun(ss) && i <= j < |ss|
    requires ss[i].closed
    ensures ss[j].closed && ss[j].accepted == ss[i].accepted
  {
    if i < j {
      NothingAcceptedAfterClose(ss, i, j - 1);
      ClosedStep(ss[j - 1], ss[j]);
    }
  }

  /** The store is shut and its flusher, if there ever was one, has left nothing behind. */
  predicate Settled(s: State) {
    s.closed && (!s.started || (s.phase.Exited? && s.pending == map[]))
  }

  lemma SettledByStep(s: State, a: Act, n: State)
    requires BirthInv(s) && CloseInv(s) && Settled(s) && Step(s, a, n)
    ensures Settled(n)
  {
    if ByReader(a) {
      ReaderFrame(s, a, n);
    }
  }

  lemma SettledStep(s: State, n: State)
    requires BirthInv(s) && CloseInv(s) && Settled(s) && CanStep(s, n)
    ensures Settled(n)
  {
    var a :| Step(s, a, n);
    SettledByStep(s, a, n);
  }

  lemma SettledNext(ss: seq<State>, i: nat)
    requires IsRun(ss) && i < |ss| - 1
    requires Settled(ss[i])
    ensures Settled(ss[i + 1])
  {
    RunInv(ss, i);
    SettledStep(ss[i], ss[i + 1]);
  }

  lemma {:induction false} SettledStays(ss: seq<State>, i: nat, j: nat)
    requires IsRun(ss) && i <= j < |ss|
    requires Settled(ss[i])
    ensures Settled(ss[j])
    decreases j - i
  {
    if i < j {
      SettledNext(ss, i);
      SettledStays(ss, i + 1, j);
    }
  }

  /** A close that reports success means every write ever accepted is on disk, then and for good. */
  lemma CleanCloseMeansWritten(ss: seq<State>, i: nat, j: nat, t: int)
    requires IsRun(ss) && i <= j < |ss|
    requires CloserAt(ss[i], t) == Returned(true)
    ensures forall v | v in ss[j].accepted :: DiskAt(ss[j], v) == ss[j].accepted[v]
  {
    RunInv(ss, i);
    SettledStays(ss, i, j);
    RunInv(ss, j);
    assert InFlight(ss[j].phase) == map[];
    assert forall v | v in ss[j].accepted :: Target(ss[j], v) == DiskAt(ss[j], v);
  }

  /** A close that has waited for the flusher, or found there was none, reports success exactly if nothing is queued. */
  lemma ReportsIfDrained(s: State, t: int, n: State)
    requires Step(s, SeeDone(t), n) || Step(s, Drain(t), n)
    ensures n.pending == s.pending && (CloserAt(n, t) == Returned(true) <==> n.pending == map[])
  {
  }

  lemma FlusherStaysStopped(s: State, a: Act, n: State)
    requires Enabled(s, a) && MainStep(s, a, n) && !ByWriter(a) && !ByCloser(a) && Stopped(s.phase)
    ensures Stopped(n.phase)
  {
  }

  /** Once stopped the flusher makes its last flush and ends, whether or not that flush succeeds. */
  lemma StaysStopped(s: State, a: Act, n: State)
    requires Step(s, a, n) && Stopped(s.phase)
    ensures Stopped(n.phase)
  {
    if ByReader(a) {
      ReaderFrame(s, a, n);
    } else if a.Enqueue? {
      EnqueueFrame(s, a, n);
    } else if ByCloser(a) {
      CloserFrame(s, a, n);
    } else if !ByWriter(a) {
      FlusherStaysStopped(s, a, n);
    }
  }

  /** A scan does not touch the copy of a VM with a queued write, and from then on no load goes to disk. */
  lemma ScanIsForGood(s: State, a: Act, n: State, v: int)
    requires Step(s, a, n)
    ensures n.io.scanned <==> s.io.scanned || a.MergeScan?
    ensures a.LookUp? ==> !s.io.scanned
    ensures a.MergeScan? && v in s.pending ==> (v in n.cache <==> v in s.cache)
    ensures a.MergeScan? && v in s.pending && v in s.cache ==> n.cache[v] == s.cache[v]
  {
  }

  // ---- When a cached copy misleads ----

  /** The cached copy of a file that no batch is about to replace differs from the file. */
  predicate Misled(s: State, v: int) {
    v in s.cache && v !in InFlight(s.phase) && s.cache[v] != DiskAt(s, v)
  }

  predicate HoldsOld(s: State, r: Read, v: int) {
    r.Holding? && r.v == v && r.data != DiskAt(s, v)
  }

  /** Someone has read v's file and is about to install what is no longer there. */
  predicate Overtaken(s: State, v: int) {
    || (exists t :: t in s.io.readers && HoldsOld(s, s.io.readers[t], v))
    || (v in s.io.loaded && s.io.loaded[v] != DiskAt(s, v))
  }

  lemma ReaderMisleads(s: State, a: Act, n: State, v: int)
    requires Step(s, a, n) && ByReader(a) && Misled(n, v) && !Misled(s, v)
    ensures a.Install? || a.MergeScan?
    ensures a.Install? ==> s.io.readers[a.t].v == v && s.io.readers[a.t].data != DiskAt(s, v)
    ensures a.MergeScan? ==> v in s.io.loaded && s.io.loaded[v] != DiskAt(s, v)
  {
  }

  lemma RecordCorrects(s: State, a: Act, n: State, v: int)
    requires RecordingInv(s) && Step(s, a, n) && a.Record? && Misled(n, v)
    ensures Misled(s, v)
  {
  }

  /** A cached copy starts to mislead only when a load or the scan installs a read that a write has overtaken. */
  lemma OnlyRacesMislead(s: State, a: Act, n: State, v: int)
    requires LedgerInv(s) && Step(s, a, n) && Misled(n, v) && !Misled(s, v)
    ensures (a.Install? || a.MergeScan?) && Overtaken(s, v)
  {
    if ByReader(a) {
      ReaderMisleads(s, a, n, v);
      if a.Install? {
        assert s.io.readers[a.t].Holding?;
      }
    } else if a.Record? {
      RecordCorrects(s, a, n, v);
    } else {
      FlusherMisleads(s, a, n, v);
    }
  }

  lemma WriteStands(s: State, a: Act, n: State)
    requires Step(s, a, n) && a.Write?
    ensures n.cache == s.cache && n.io == s.io && InFlight(n.phase) == InFlight(s.phase) && a.v in InFlight(s.phase)
    ensures forall v | v != a.v :: DiskAt(n, v) == DiskAt(s, v)
  {
    assert InFlight(n.phase) == InFlight(s.phase);
  }

  lemma CopiesStand(s: State, a: Act, n: State, v: int)
    requires Step(s, a, n) && !ByReader(a) && !a.Write? && !a.Record?
    ensures n.cache == s.cache && (v in InFlight(s.phase) ==> v in InFlight(n.phase))
  {
    if a.TakeBatch? {
      TakeFrame(s, a, n);
    } else if a.Enqueue? {
      EnqueueFrame(s, a, n);
    } else {
      DataFrame(s, a, n);
    }
  }

  lemma FlusherMisleads(s: State, a: Act, n: State, v: int)
    requires Step(s, a, n) && !ByReader(a) && !a.Record? && Misled(n, v)
    ensures Misled(s, v)
  {
    if a.Write? {
      WriteStands(s, a, n);
    } else {
      CopiesStand(s, a, n, v);
    }
  }

  lemma SameReads(s: State, n: State, v: int)
    requires n.io == s.io && DiskAt(n, v) == DiskAt(s, v)
    ensures Overtaken(n, v) <==> Overtaken(s, v)
  {
  }

  lemma ReadersKeepUp(s: State, a: Act, n: State, v: int)
    requires Step(s, a, n) && ByReader(a) && !Overtaken(s, v)
    ensures !Overtaken(n, v)
  {
    assert n.disk == s.disk;
  }

  /** And a read is overtaken only by a write of its own file. */
  lemma OnlyWritesOvertake(s: State, a: Act, n: State, v: int)
    requires Step(s, a, n) && Overtaken(n, v) && !Overtaken(s, v)
    ensures a.Write? && a.v == v
  {
    if ByReader(a) {
      ReadersKeepUp(s, a, n, v);
    } else {
      if a.Write? { WriteStands(s, a, n); }
      if DiskAt(n, v) == DiskAt(s, v) {
        SameReads(s, n, v);
      }
    }
  }

  lemma MisledCanStep(s: State, n: State, v: int)
    requires LedgerInv(s) && CanStep(s, n) && Misled(n, v) && !Misled(s, v)
    ensures Overtaken(s, v)
  {
    var a :| Step(s, a, n);
    OnlyRacesMislead(s, a, n, v);
  }

  /** In every run, a cached copy misleads only if some read of its file was overtaken before. */
  lemma {:induction false} MisledMeansRaced(ss: seq<State>, i: nat, v: int)
    requires IsRun(ss) && i < |ss| && Misled(ss[i], v)
    ensures exists k :: 0 <= k < i && Overtaken(ss[k], v)
  {
    if i > 0 {
      if Misled(ss[i - 1], v) {
        MisledMeansRaced(ss, i - 1, v);
      } else {
        RunInv(ss, i - 1);
        MisledCanStep(ss[i - 1], ss[i], v);
      }
    }
  }

  // ---- What a save is worth ----

  /** A save that repeats a cached value which is not what the file holds or will hold. */
  predicate Stale(s: State, v: int, data: Data) {
    v !in s.pending && v in s.cache && s.cache[v] == data && Target(s, v) != data
  }

  /** There are two ways to that: a batch in flight is replacing the value, or the cached copy misleads. */
  lemma StaleTwoWays(s: State, v: int, data: Data)
    ensures Stale(s, v, data) <==>
            v !in s.pending && v in s.cache && s.cache[v] == data &&
            (if v in InFlight(s.phase) then InFlight(s.phase)[v] != data else Misled(s, v))
  {
  }

  /** A save on an open store decides what its VM's file will hold exactly when it is not stale. */
  lemma SaveDecides(s: State, t: int, v: int, data: Data, n: State)
    requires Inv(s) && !s.closed && Step(s, Enqueue(t, v, data), n)
    ensures Target(n, v) == data <==> !Stale(s, v, data)
    ensures Stale(s, v, data) ==> n == s
    ensures forall w | w != v :: Target(n, w) == Target(s, w)
  {
  }

  // ---- What a load is answered ----

  /** What a load that runs at this moment gives back, its read of the file included. */
  function Answer(s: State, v: int): Data {
    if v in s.pending then s.pending[v]
    else if v in s.cache then s.cache[v]
    else if s.io.scanned then Tombstone
    else DiskAt(s, v)
  }

  /** A scan has declared v absent although its file is there. */
  predicate Lost(s: State, v: int) {
    s.io.scanned && v !in s.cache && DiskAt(s, v).Content?
  }

  /** A batch in flight is about to give v another value than the one still held for it. */
  predicate Behind(s: State, v: int) {
    && v in InFlight(s.phase)
    && InFlight(s.phase)[v] != if v in s.cache then s.cache[v] else if s.io.scanned then Tombstone else DiskAt(s, v)
  }

  predicate AtRest(s: State, v: int) {
    v !in s.pending && v !in InFlight(s.phase)
  }

  /**
   A load is answered with the last value the store accepted, or else with the file's content,
   exactly if the value is still queued, or is in flight and not behind, or is at rest
   and neither misleads nor was lost by a scan.
   */
  lemma AnswersTargetIff(s: State, v: int)
    ensures Answer(s, v) == Target(s, v) <==>
            v in s.pending || (if AtRest(s, v) then !Misled(s, v) && !Lost(s, v) else !Behind(s, v))
  {
  }

  /** In every run a wrong answer for what has been accepted is one of these three. */
  lemma WrongAnswers(ss: seq<State>, i: nat, v: int)
    requires IsRun(ss) && i < |ss| && v in ss[i].accepted
    ensures Answer(ss[i], v) != ss[i].accepted[v] <==>
            v !in ss[i].pending &&
            (Behind(ss[i], v) || (AtRest(ss[i], v) && (Misled(ss[i], v) || Lost(ss[i], v))))
    ensures AtRest(ss[i], v) && Misled(ss[i], v) ==> exists k :: 0 <= k < i && Overtaken(ss[k], v)
  {
    RunInv(ss, i);
    AnswersTargetIff(ss[i], v);
    if AtRest(ss[i], v) && Misled(ss[i], v) {
      MisledMeansRaced(ss, i, v);
    }
  }

  lemma RecordCatchesUp(s: State, a: Act, n: State, v: int)
    requires RecordingInv(s) && Step(s, a, n) && a.Record? && v in s.cache && Behind(s, v) && !Behind(n, v)
    ensures s.phase.v == v
  {
  }

  lemma OthersStayBehind(s: State, a: Act, n: State, v: int)
    requires Step(s, a, n) && !ByReader(a) && !a.Record? && v in s.cache && Behind(s, v)
    ensures Behind(n, v)
  {
    if a.Write? {
      WriteStands(s, a, n);
    } else if a.TakeBatch? {
      TakeFrame(s, a, n);
    } else if a.Enqueue? {
      EnqueueFrame(s, a, n);
    } else {
      DataFrame(s, a, n);
    }
  }

  /** The old value goes on being answered, past the write of the file, until the outcome of the write is recorded. */
  lemma BehindUntilRecorded(s: State, a: Act, n: State, v: int)
    requires LedgerInv(s) && Step(s, a, n) && v in s.cache && Behind(s, v) && !Behind(n, v)
    ensures (a.Record? && s.phase.v == v) || a.Install? || a.MergeScan?
  {
    if a.Record? {
      RecordCatchesUp(s, a, n, v);
    } else if !ByReader(a) {
      OthersStayBehind(s, a, n, v);
    } else {
      ReaderFrame(s, a, n);
    }
  }

  lemma RecordLoses(s: State, a: Act, n: State, v: int)
    requires RecordingInv(s) && Step(s, a, n) && a.Record? && AtRest(n, v) && Lost(n, v)
    ensures AtRest(s, v) && Lost(s, v)
  {
  }

  lemma OthersLose(s: State, a: Act, n: State, v: int)
    requires Step(s, a, n) && !ByReader(a) && !a.Record? && AtRest(n, v) && Lost(n, v)
    ensures AtRest(s, v) && Lost(s, v)
  {
    if a.Write? {
      WriteStands(s, a, n);
      WriteKeys(s, a, n);
    } else if a.TakeBatch? {
      TakeFrame(s, a, n);
    } else if a.Enqueue? {
      EnqueueFrame(s, a, n);
    } else {
      DataFrame(s, a, n);
    }
  }

  /** Only a scan loses a file. */
  lemma OnlyScansLose(s: State, a: Act, n: State, v: int)
    requires LedgerInv(s) && Step(s, a, n) && AtRest(n, v) && Lost(n, v) && !(AtRest(s, v) && Lost(s, v))
    ensures a.MergeScan? && v !in s.io.loaded
  {
    if ByReader(a) {
      ReaderFrame(s, a, n);
    } else if a.Record? {
      RecordLoses(s, a, n, v);
    } else {
      OthersLose(s, a, n, v);
    }
  }

  // ---- Runs in which a save is lost or a load is answered wrongly ----

  /** VM 7's file and queue while saved is on its way over stored and caller 1 is the only caller. */
  function Busy(saved: Data, scanned: bool, pending: map<int, Data>, cache: map<int, Data>, stored: Data, wake: bool,
                spawns: nat, phase: Phase, caller: Writer, readers: map<int, Read>): State {
    State(pending, cache, map[7 := stored], true, false, wake, spawns, 0, 0,
          phase, map[1 := caller], map[], map[7 := saved], Reading(scanned, readers, map[]))
  }

  /** The same while B is being saved over A. */
  function Saving(pending: map<int, Data>, cache: map<int, Data>, stored: nat, wake: bool, spawns: nat, phase: Phase,
                  caller: Writer, readers: map<int, Read>): State {
    Busy(Content(1), false, pending, cache, Content(stored), wake, spawns, phase, caller, readers)
  }

  lemma Append(ss: seq<State>, a: Act, n: State)
    requires ss != [] && Chain(ss) && Step(ss[|ss| - 1], a, n)
    ensures Chain(ss + [n])
  {
    var t := ss + [n];
    forall i, j | 0 <= i < j < |t| && j == i + 1 ensures CanStep(t[i], t[j]) {
      if j < |ss| {
        assert CanStep(ss[i], ss[j]);
      } else {
        assert CanStep(ss[|ss| - 1], n);
      }
    }
  }

  const B7 := map[7 := Content(1)]

  /** From a store at rest that holds A, cached or not, to another value queued and its flusher signalled. */
  lemma Queueing(saved: Data, scanned: bool, cache: map<int, Data>) returns (ss: seq<State>)
    requires cache in {map[], map[7 := Content(0)]} && saved != Content(0)
    ensures |ss| == 4 && Initial(ss[0]) && Chain(ss)
    ensures ss[3] == Busy(saved, scanned, map[7 := saved], cache, Content(0), true, 1, Selecting, Idle, map[])
  {
    var a, q := Content(0), map[7 := saved];
    var s0 := Init(cache, map[7 := a], scanned);
    var s1 := Busy(saved, scanned, q, cache, a, false, 0, Unborn, Spawning, map[]);
    var s2 := Busy(saved, scanned, q, cache, a, false, 1, Selecting, Signalling, map[]);
    var s3 := Busy(saved, scanned, q, cache, a, true, 1, Selecting, Idle, map[]);
    Append([s0], Enqueue(1, 7, saved), s1);
    Append([s0] + [s1], Spawn(1), s2);
    Append([s0] + [s1] + [s2], Signal(1), s3);
    ss := [s0] + [s1] + [s2] + [s3];
  }

  /** And on to the value taken as a batch. */
  lemma Taking(front: seq<State>, saved: Data, scanned: bool, cache: map<int, Data>) returns (ss: seq<State>)
    requires front != [] && Chain(front)
    requires front[|front| - 1] ==
             Busy(saved, scanned, map[7 := saved], cache, Content(0), true, 1, Selecting, Idle, map[])
    ensures |ss| == |front| + 3 && ss[..|front|] == front && Chain(ss)
    ensures ss[|front| + 2] ==
            Busy(saved, scanned, map[], cache, Content(0), false, 1, Writing(false, map[7 := saved], true), Idle, map[])
  {
    var a, q := Content(0), map[7 := saved];
    var s4 := Busy(saved, scanned, q, cache, a, false, 1, Debouncing, Idle, map[]);
    var s5 := Busy(saved, scanned, q, cache, a, false, 1, TakingBatch(false), Idle, map[]);
    var s6 := Busy(saved, scanned, map[], cache, a, false, 1, Writing(false, q, true), Idle, map[]);
    Append(front, TakeWake, s4);
    Append(front + [s4], TimerFires, s5);
    assert 7 in q;
    Append(front + [s4] + [s5], TakeBatch, s6);
    ss := front + [s4] + [s5] + [s6];
  }

  lemma SavingB(cache: map<int, Data>) returns (ss: seq<State>)
    requires cache in {map[], map[7 := Content(0)]}
    ensures |ss| == 7 && Initial(ss[0]) && Chain(ss)
    ensures ss[6] == Saving(map[], cache, 0, false, 1, Writing(false, B7, true), Idle, map[])
  {
    var front := Queueing(Content(1), false, cache);
    ss := Taking(front, Content(1), false, cache);
    assert ss[0] == ss[..4][0];
  }

  /** The batch is written and recorded, whatever is cached and whoever is reading. */
  lemma WritingB(cache: map<int, Data>, readers: map<int, Read>) returns (ss: seq<State>)
    ensures |ss| == 4 && Chain(ss)
    ensures ss[0] == Saving(map[], cache, 0, false, 1, Writing(false, B7, true), Idle, readers)
    ensures ss[3] == Saving(map[], cache[7 := Content(1)], 1, false, 1, Selecting, Idle, readers)
  {
    var s0 := Saving(map[], cache, 0, false, 1, Writing(false, B7, true), Idle, readers);
    var s1 := Saving(map[], cache, 1, false, 1, Recording(false, map[], true, 7, Content(1), true), Idle, readers);
    var s2 := Saving(map[], cache[7 := Content(1)], 1, false, 1, Writing(false, map[], true), Idle, readers);
    var s3 := Saving(map[], cache[7 := Content(1)], 1, false, 1, Selecting, Idle, readers);
    assert Without(B7, 7) == map[];
    assert map[7 := Content(0)][7 := Content(1)] == B7;
    Append([s0], Write(7, []), s1);
    Append([s0] + [s1], Record, s2);
    Append([s0] + [s1] + [s2], EndFlush, s3);
    ss := [s0] + [s1] + [s2] + [s3];
  }

  /** A stale save is really lost: the system comes to rest with B on disk although A was saved last. */
  lemma StaleSaveIsLost() returns (ss: seq<State>)
    ensures IsRun(ss) && |ss| == 11
    ensures Step(ss[6], Enqueue(1, 7, Content(0)), ss[7])
    ensures ss[10].phase.Selecting? && !ss[10].wake && ss[10].pending == map[]
    ensures DiskAt(ss[10], 7) == Content(1)
  {
    var front := SavingB(map[7 := Content(0)]);
    var back := WritingB(map[7 := Content(0)], map[]);
    DroppedSave(front[6]);
    Chained(front, back);
    ss := front + back;
  }

  lemma DroppedSave(s: State)
    requires 7 !in s.pending && 7 in s.cache && s.cache[7] == Content(0) && WriterAt(s, 1).Idle?
    ensures Step(s, Enqueue(1, 7, Content(0)), s) && CanStep(s, s)
  {
    assert Step(s, Enqueue(1, 7, Content(0)), s);
  }

  lemma Chained(a: seq<State>, b: seq<State>)
    requires a != [] && b != [] && CanStep(a[|a| - 1], b[0])
    requires Chain(a) && Chain(b)
    ensures Chain(a + b)
  {
    forall i, j | 0 <= i < j < |a + b| && j == i + 1 ensures CanStep((a + b)[i], (a + b)[j]) {
      if j < |a| {
        assert CanStep(a[i], a[j]);
      } else if j > |a| {
        assert CanStep(b[i - |a|], b[j - |a|]);
      }
    }
  }

  /** A load misses and reads A while the batch is on its way. */
  lemma ReadingA(ss: seq<State>) returns (r: seq<State>)
    requires ss != [] && Chain(ss)
    requires ss[|ss| - 1] == Saving(map[], map[], 0, false, 1, Writing(false, B7, true), Idle, map[])
    ensures |r| == |ss| + 2 && Chain(r) && r[..|ss|] == ss
    ensures r[|ss| + 1] ==
            Saving(map[], map[], 0, false, 1, Writing(false, B7, true), Idle, map[2 := Holding(7, Content(0))])
  {
    var s1 := Saving(map[], map[], 0, false, 1, Writing(false, B7, true), Idle, map[2 := Missed(7)]);
    var s2 := Saving(map[], map[], 0, false, 1, Writing(false, B7, true), Idle, map[2 := Holding(7, Content(0))]);
    assert map[2 := Missed(7)][2 := Holding(7, Content(0))] == map[2 := Holding(7, Content(0))];
    Append(ss, LookUp(2, 7), s1);
    Append(ss + [s1], ReadFile(2, true), s2);
    r := ss + [s1] + [s2];
  }

  /** After the batch has been recorded, the load installs A; from then on saving A is dropped. */
  lemma InstallingA() returns (n: State)
    ensures CanStep(Saving(map[], B7, 1, false, 1, Selecting, Idle, map[2 := Holding(7, Content(0))]), n)
    ensures n == Saving(map[], map[7 := Content(0)], 1, false, 1, Selecting, Idle, map[])
    ensures Misled(n, 7)
  {
    var s := Saving(map[], B7, 1, false, 1, Selecting, Idle, map[2 := Holding(7, Content(0))]);
    n := Saving(map[], map[7 := Content(0)], 1, false, 1, Selecting, Idle, map[]);
    assert B7[7 := Content(0)] == map[7 := Content(0)];
    assert map[2 := Holding(7, Content(0))] - {2} == map[];
    assert Step(s, Install(2), n);
  }

  /** The other way to lose a save: nothing is in flight, but a load that was overtaken has left A in the cache. */
  lemma RacedSaveIsLost() returns (ss: seq<State>)
    ensures IsRun(ss) && |ss| == 14
    ensures Step(ss[12], Enqueue(1, 7, Content(0)), ss[13]) && InFlight(ss[12].phase) == map[]
    ensures ss[13].phase.Selecting? && !ss[13].wake && ss[13].pending == map[]
    ensures DiskAt(ss[13], 7) == Content(1)
  {
    var start := SavingB(map[]);
    var front := ReadingA(start);
    var back := WritingB(map[], map[2 := Holding(7, Content(0))]);
    var n := InstallingA();
    assert map[][7 := Content(1)] == B7;
    DroppedSave(n);
    Tail(back);
    Chained(front, back[1..]);
    Chained(front + back[1..], [n, n]);
    ss := front + back[1..] + [n, n];
  }

  /**
   A deletion accepted on an open store, with no load and no scan under way: from the moment
   the flusher has taken it until its outcome is recorded, even once the file is gone, a
   load is answered with the old mappings.
   */
  lemma DeletedIsAnswered(scanned: bool) returns (ss: seq<State>)
    ensures IsRun(ss) && |ss| == 8 && !ss[7].closed && ss[7].io == Reading(scanned, map[], map[])
    ensures ss[6].accepted == map[7 := Tombstone] && Target(ss[6], 7) == Tombstone && Answer(ss[6], 7) == Content(0)
    ensures DiskAt(ss[7], 7) == Target(ss[7], 7) == Tombstone && Answer(ss[7], 7) == Content(0)
  {
    var cache, q := map[7 := Content(0)], map[7 := Tombstone];
    var start := Queueing(Tombstone, scanned, cache);
    var front := Taking(start, Tombstone, scanned, cache);
    assert front[0] == front[..4][0];
    var s7 := Busy(Tombstone, scanned, map[], cache, Tombstone, false, 1,
                   Recording(false, map[], true, 7, Tombstone, true), Idle, map[]);
    assert Without(q, 7) == map[];
    assert map[7 := Content(0)][7 := Tombstone] == map[7 := Tombstone];
    Append(front, Write(7, []), s7);
    ss := front + [s7];
  }

  /** A write that fails is queued again. */
  lemma Requeueing(front: seq<State>) returns (ss: seq<State>)
    requires front != [] && Chain(front)
    requires front[|front| - 1] == Busy(Content(1), true, map[], map[7 := Content(0)], Content(0), false, 1,
                                        Writing(false, B7, true), Idle, map[])
    ensures |ss| == |front| + 2 && ss[..|front|] == front && Chain(ss)
    ensures ss[|front| + 1] ==
            Busy(Content(1), true, B7, map[], Content(0), false, 1, Writing(false, map[], false), Idle, map[])
  {
    var a, b, cache := Content(0), Content(1), map[7 := Content(0)];
    var s1 := Busy(b, true, map[], cache, a, false, 1, Recording(false, map[], true, 7, b, false), Idle, map[]);
    var s2 := Busy(b, true, B7, map[], a, false, 1, Writing(false, map[], false), Idle, map[]);
    assert Without(B7, 7) == map[] && Without(cache, 7) == map[];
    assert cache[7 := a] == cache;
    assert Requeue(map[], 7, b) == B7;
    Append(front, Write(7, [a]), s1);
    Append(front + [s1], Record, s2);
    ss := front + [s1] + [s2];
  }

  /** And waits for the flusher's next token. */
  lemma Failing(front: seq<State>) returns (ss: seq<State>)
    requires front != [] && Chain(front)
    requires front[|front| - 1] == Busy(Content(1), true, map[], map[7 := Content(0)], Content(0), false, 1,
                                        Writing(false, B7, true), Idle, map[])
    ensures |ss| == |front| + 4 && ss[..|front|] == front && Chain(ss)
    ensures ss[|front| + 3] == Busy(Content(1), true, B7, map[], Content(0), true, 1, Selecting, Idle, map[])
  {
    var mid := Requeueing(front);
    var s3 := Busy(Content(1), true, B7, map[], Content(0), false, 1, Rearming, Idle, map[]);
    var s4 := Busy(Content(1), true, B7, map[], Content(0), true, 1, Selecting, Idle, map[]);
    Append(mid, EndFlush, s3);
    Append(mid + [s3], Rearm, s4);
    ss := mid + [s3] + [s4];
    assert ss[..|front|] == mid[..|front|];
  }

  /**
   On a scanned store, while a save whose first write failed is tried again, a load is
   answered with nothing at all although the file still holds the older mappings.
   */
  lemma RetryIsAnsweredAbsent() returns (ss: seq<State>)
    ensures IsRun(ss) && |ss| == 14 && !ss[13].closed && ss[13].io == Reading(true, map[], map[])
    ensures ss[13].accepted == B7 && Target(ss[13], 7) == Content(1) && DiskAt(ss[13], 7) == Content(0)
    ensures Answer(ss[13], 7) == Tombstone
  {
    var start := Queueing(Content(1), true, map[7 := Content(0)]);
    var first := Taking(start, Content(1), true, map[7 := Content(0)]);
    var front := Failing(first);
    ss := Taking(front, Content(1), true, map[]);
    assert ss[0] == ss[..11][0] == front[..7][0] == first[..4][0];
  }

  lemma Tail(ss: seq<State>)
    requires Chain(ss) && |ss| > 1
    ensures Chain(ss[1..]) && CanStep(ss[0], ss[1])
  {
    var t := ss[1..];
    forall i, j | 0 <= i < j < |t| && j == i + 1 ensures CanStep(t[i], t[j]) {
      assert CanStep(ss[i + 1], ss[j + 1]);
    }
  }
}
