/**
 A VM migrates from one node to another. Each node handles the cluster's events and runs
 its own reconciles; a run interleaves the turns of the two nodes in any order.
 */
module Migration {
  import opened Options
  import opened Text
  import opened Net
  import P = Placement
  import opened MappingCache
  import opened Kernels
  import opened Apply
  import opened ApplySteps
  import opened Nodes
  import opened Events
  import opened RunSafety
  import opened Ownership
  import opened Serving

  // ---- Turns of one node ----

  datatype Move =
    | Handle(ev: CloudEvent, w: Moment)
    | Cycle(fetch: Option<seq<Mapping>>, now: int, t: Trouble)
    | Tick(cutoff: int)
    | Webhook(d: Delta, now: int, noRead: set<int>, all: seq<Mapping>, trouble: Trouble)
    | Chore(a: Act)

  /** Steps a node takes of its own accord between events and reconciles. */
  predicate IsChore(a: Act) {
    a.Queue? || a.Dequeue? || a.SeedCache? || a.WarmBackup? || a.FlushBackup? || a.CloseBackup? || a.FlushRoutes?
  }

  ghost function MoveActs(self: string, n: Node, mv: Move): seq<Act> {
    match mv
    case Handle(ev, w) => HandleActs(self, n, ev, w)
    case Cycle(fetch, now, t) => CycleActs(fetch, now, t)
    case Tick(cutoff) => [Act.ExpireStaged(cutoff), Queue]
    case Webhook(d, now, noRead, all, trouble) => [Act.Apply(Hook(d, now, noRead), all, trouble)]
    case Chore(a) => [a]
  }

  ghost predicate Moves(env: Env, n: Node, mv: Move, p: Path, m: Node) {
    && Leads(env, n, p, m) && p.acts == MoveActs(env.self, n, mv)
    && (mv.Chore? ==> IsChore(mv.a))
  }

  // ---- Where the VM is not ----

  /** No observation time is smaller. */
  const NEVER: int := -0x8000_0000_0000_0000

  /** A step that cannot bring v here: about other VMs, v stopping since then, or a snapshot of v that is older. */
  predicate Calm(a: Act, v: int, since: int) {
    && (a.Place? && a.v == v ==> a.status == P.Absent && a.t >= since)
    && (a.Observe? && a.v == v && a.running ==> a.observed < since)
    && (a.Apply? && a.origin.Hook? ==> !(NamesVM(a.origin.d) && a.origin.d.vmid == v))
  }

  /** v is not active here, as a record no older than since says. */
  predicate NotHere(n: Node, v: int, since: int) {
    !IsActive(n.vms, v) && (since > NEVER ==> v in n.vms && n.vms[v].last >= since)
  }

  /** v has been staged here at time t and still is. */
  predicate Staying(n: Node, v: int, t: int) {
    v in n.vms && n.vms[v].status == P.Staged && n.vms[v].last == t && n.vms[v].stagedAt == t
  }

  /** A node on which v's addresses are v's alone and on the loopback only by its own doing. */
  ghost predicate Sound(env: Env, n: Node, v: int, xs: set<Addr>) {
    Inv(env, n) && Owned(n, v, xs) && Accounted(n, xs)
  }

  /** Such a node without v, though it may not have let go of the addresses yet. */
  ghost predicate Leaving(env: Env, n: Node, v: int, xs: set<Addr>, since: int) {
    Sound(env, n, v, xs) && NotHere(n, v, since)
  }

  /** And one that has. */
  ghost predicate Quiet(env: Env, n: Node, v: int, xs: set<Addr>, since: int) {
    Leaving(env, n, v, xs, since) && Clear(n, xs)
  }

  /** What a calm step does to the record of v. */
  lemma PlacementOnly(env: Env, n: Node, a: Act, es: seq<Event>, m: Node, v: int, since: int)
    requires Step(env, n, a, es, m) && Calm(a, v, since)
    ensures Lookup(m.vms, v) ==
            if a.Place? && a.v == v then Some(P.Lifecycle(Lookup(n.vms, v), a.name, a.status, a.t))
            else if a.Observe? && a.v == v then Some(P.Snapshot(Lookup(n.vms, v), a.name, a.running, a.observed))
            else if a.ExpireStaged? && v in n.vms then Some(P.Expire(n.vms[v], a.cutoff))
            else Lookup(n.vms, v)
  {
    if a.Apply? {
      assert m.vms == PreparedVms(n, a.origin);
    }
  }

  lemma NotHereStep(env: Env, n: Node, a: Act, es: seq<Event>, m: Node, v: int, since: int)
    requires Step(env, n, a, es, m) && Calm(a, v, since) && NotHere(n, v, since)
    ensures NotHere(m, v, since)
  {
    PlacementOnly(env, n, a, es, m, v, since);
  }

  lemma StayingStep(env: Env, n: Node, a: Act, es: seq<Event>, m: Node, v: int, t: int)
    requires Step(env, n, a, es, m) && Calm(a, v, t) && Staying(n, v, t)
    requires (a.ExpireStaged? ==> a.cutoff < t) && (a.Place? ==> a.v != v)
    ensures Staying(m, v, t)
  {
    PlacementOnly(env, n, a, es, m, v, t);
  }

  lemma SoundStep(env: Env, n: Node, a: Act, es: seq<Event>, m: Node, v: int, xs: set<Addr>)
    requires GoodText(env.text) && Sound(env, n, v, xs)
    requires Step(env, n, a, es, m) && Brings(env, n, a, v, xs)
    ensures Sound(env, m, v, xs)
  {
    StepInv(env, n, a, es, m);
    OwnedStep(env, n, a, es, m, v, xs);
    AccountedStep(env, n, a, es, m, xs);
  }

  lemma LeavingStep(env: Env, n: Node, a: Act, es: seq<Event>, m: Node, v: int, xs: set<Addr>, since: int)
    requires GoodText(env.text) && Leaving(env, n, v, xs, since)
    requires Step(env, n, a, es, m) && Brings(env, n, a, v, xs) && Calm(a, v, since)
    ensures Leaving(env, m, v, xs, since)
    ensures Clear(n, xs) ==> Clear(m, xs) && NoAdverts(es, xs)
    ensures Flawless(env, n, a, m) ==> Clear(m, xs)
  {
    SoundStep(env, n, a, es, m, v, xs);
    NotHereStep(env, n, a, es, m, v, since);
    if Clear(n, xs) {
      ClearStep(env, n, a, es, m, v, xs);
    }
    if Flawless(env, n, a, m) {
      FlawlessClears(env, n, a, es, m, v, xs);
    }
  }

  // ---- Stretches of a run ----

  predicate AllCalm(acts: seq<Act>, v: int, since: int) {
    forall i | 0 <= i < |acts| :: Calm(acts[i], v, since)
  }

  /** Nothing expires what was staged at time t, and nothing places v. */
  predicate Undisturbed(acts: seq<Act>, v: int, t: int) {
    forall i | 0 <= i < |acts| ::
      (acts[i].ExpireStaged? ==> acts[i].cutoff < t) && (acts[i].Place? ==> acts[i].v != v)
  }

  ghost predicate PathBrings(env: Env, p: Path, v: int, xs: set<Addr>)
    requires |p.ns| == |p.acts| + 1
  {
    forall i | 0 <= i < |p.acts| :: Brings(env, p.ns[i], p.acts[i], v, xs)
  }

  /** The last step of the path is an apply without any error. */
  ghost predicate EndsFlawless(env: Env, p: Path) {
    && p.acts != [] && |p.ns| == |p.acts| + 1
    && Flawless(env, p.ns[|p.acts| - 1], p.acts[|p.acts| - 1], p.ns[|p.acts|])
  }

  lemma FrontBrings(env: Env, p: Path, v: int, xs: set<Addr>)
    requires p.acts != [] && |p.ns| == |p.acts| + 1 && |p.ess| == |p.acts| && PathBrings(env, p, v, xs)
    ensures PathBrings(env, Front(p), v, xs)
    ensures var k := |p.acts| - 1; Brings(env, p.ns[k], p.acts[k], v, xs)
  {
    forall i | 0 <= i < |p.acts| - 1 ensures Brings(env, Front(p).ns[i], Front(p).acts[i], v, xs) {
      assert Brings(env, p.ns[i], p.acts[i], v, xs);
    }
  }

  lemma {:induction false} SoundPath(env: Env, n: Node, p: Path, m: Node, v: int, xs: set<Addr>)
    requires GoodText(env.text) && Sound(env, n, v, xs)
    requires Leads(env, n, p, m) && PathBrings(env, p, v, xs)
    ensures Sound(env, m, v, xs)
    decreases |p.acts|
  {
    if p.acts != [] {
      var k := |p.acts| - 1;
      LeadsFront(env, n, p, m);
      FrontBrings(env, p, v, xs);
      SoundPath(env, n, Front(p), p.ns[k], v, xs);
      SoundStep(env, p.ns[k], p.acts[k], p.ess[k], m, v, xs);
    }
  }

  lemma {:induction false} LeavingPath(env: Env, n: Node, p: Path, m: Node, v: int, xs: set<Addr>, since: int)
    requires GoodText(env.text) && Leaving(env, n, v, xs, since)
    requires Leads(env, n, p, m) && PathBrings(env, p, v, xs) && AllCalm(p.acts, v, since)
    ensures Leaving(env, m, v, xs, since)
    ensures Clear(n, xs) ==> Clear(m, xs) && NoAdverts(Log(p.ess), xs)
    ensures EndsFlawless(env, p) ==> Clear(m, xs)
    decreases |p.acts|
  {
    if p.acts != [] {
      var k := |p.acts| - 1;
      LeadsFront(env, n, p, m);
      FrontBrings(env, p, v, xs);
      LeavingPath(env, n, Front(p), p.ns[k], v, xs, since);
      LeavingStep(env, p.ns[k], p.acts[k], p.ess[k], m, v, xs, since);
      LogOne(Front(p).ess, p.ess[k]);
    }
  }

  lemma {:induction false} StayingPath(env: Env, n: Node, p: Path, m: Node, v: int, t: int)
    requires Staying(n, v, t)
    requires Leads(env, n, p, m) && AllCalm(p.acts, v, t) && Undisturbed(p.acts, v, t)
    ensures Staying(m, v, t)
    decreases |p.acts|
  {
    if p.acts != [] {
      var k := |p.acts| - 1;
      LeadsFront(env, n, p, m);
      StayingPath(env, n, Front(p), p.ns[k], v, t);
      StayingStep(env, p.ns[k], p.acts[k], p.ess[k], m, v, t);
    }
  }

  // ---- Events about the VM ----

  /** An event that cannot make v active here: about another VM, none of this node's business, or old news. */
  predicate Harmless(self: string, ev: CloudEvent, v: int, since: int) {
    ev.vmid != v ||
    (!MigrationHere(self, ev) && !LifecycleHere(self, ev) &&
     (IsSnapshot(ev) && SameNode(ev.node, self) && ev.state == "running" ==> ev.observed < since))
  }

  /** The VM starting here, as it does while it migrates in. */
  predicate LocalStart(self: string, ev: CloudEvent, v: int) {
    ev.vmid == v && Starts(ev) && SameNode(ev.node, self) && !MigrationHere(self, ev) && !Stops(ev)
  }

  /** The VM stopping here, no earlier than since. */
  predicate LocalStop(self: string, ev: CloudEvent, v: int, since: int, now: int) {
    ev.vmid == v && Stops(ev) && SameNode(ev.node, self) && !MigrationHere(self, ev) && TimeOf(ev, now) >= since
  }

  /** A turn that leaves v's addresses to v: what it fetches, seeds and hears by webhook gives none of them away. */
  ghost predicate BringsMove(env: Env, n: Node, mv: Move, v: int, xs: set<Addr>) {
    match mv
    case Cycle(fetch, now, t) => fetch.Some? ==> AllOwned(fetch.value, v, xs)
    case Webhook(d, _, _, _, _) => KeepsAway(env.parse, Readied(n.cache), d, v, xs)
    case Chore(a) => Brings(env, n, a, v, xs)
    case _ => true
  }

  /** A turn in which nothing brings v here. If it is staged it may start meanwhile, otherwise it may stop. */
  ghost predicate CalmMove(env: Env, n: Node, mv: Move, v: int, xs: set<Addr>, since: int, staged: bool) {
    && BringsMove(env, n, mv, v, xs)
    && match mv
       case Handle(ev, w) =>
         || Harmless(env.self, ev, v, since)
         || (if staged then LocalStart(env.self, ev, v) else LocalStop(env.self, ev, v, since, w.now))
       case Tick(cutoff) => staged ==> cutoff < since
       case Webhook(d, _, _, _, _) => !(NamesVM(d) && d.vmid == v)
       case _ => true
  }

  /** Steps that bring nothing in any state. */
  predicate Plain(a: Act) {
    !a.SeedCache? && !a.WarmBackup? && (a.Apply? ==> a.origin.FastPath? || a.origin.FetchFailed?)
  }

  lemma HandleIsPlain(self: string, n: Node, ev: CloudEvent, w: Moment)
    ensures forall i | 0 <= i < |HandleActs(self, n, ev, w)| :: Plain(HandleActs(self, n, ev, w)[i])
  {
  }

  lemma MoveBrings(env: Env, n: Node, mv: Move, p: Path, m: Node, v: int, xs: set<Addr>)
    requires Moves(env, n, mv, p, m) && BringsMove(env, n, mv, v, xs)
    ensures PathBrings(env, p, v, xs)
  {
    if mv.Handle? {
      HandleIsPlain(env.self, n, mv.ev, mv.w);
    }
    forall i | 0 <= i < |p.acts| ensures Brings(env, p.ns[i], p.acts[i], v, xs) {
      assert mv.Handle? ==> Plain(p.acts[i]);
    }
  }

  lemma HarmlessActs(self: string, n: Node, ev: CloudEvent, w: Moment, v: int, since: int)
    requires Harmless(self, ev, v, since)
    ensures AllCalm(HandleActs(self, n, ev, w), v, since) && Undisturbed(HandleActs(self, n, ev, w), v, since)
  {
    if ev.vmid != v {
      OthersActs(self, n, ev, w, v, since);
    } else {
      OldNewsActs(self, n, ev, w, v, since);
    }
  }

  /** Handling an event about another VM places and observes that one only. */
  lemma OthersActs(self: string, n: Node, ev: CloudEvent, w: Moment, v: int, since: int)
    requires ev.vmid != v
    ensures AllCalm(HandleActs(self, n, ev, w), v, since) && Undisturbed(HandleActs(self, n, ev, w), v, since)
  {
    if MigrationHere(self, ev) {
      OthersMigrate(self, n.cache, ev, TimeOf(ev, w.now), w, v, since);
    } else if LifecycleHere(self, ev) {
      OthersLive(n.vms, ev, TimeOf(ev, w.now), v, since);
    } else {
      OthersReport(self, n, ev, w, v, since);
    }
  }

  lemma OthersMigrate(self: string, c: Cache, ev: CloudEvent, t: int, w: Moment, v: int, since: int)
    requires ev.vmid != v
    ensures var acts := MigrationActs(self, c, ev, t, w.first, w.second, w.t1, w.t2);
            AllCalm(acts, v, since) && Undisturbed(acts, v, since)
  {
  }

  lemma OthersLive(vms: P.VMs, ev: CloudEvent, t: int, v: int, since: int)
    requires ev.vmid != v
    ensures AllCalm(LifecycleActs(vms, ev, t), v, since) && Undisturbed(LifecycleActs(vms, ev, t), v, since)
  {
  }

  lemma OthersReport(self: string, n: Node, ev: CloudEvent, w: Moment, v: int, since: int)
    requires ev.vmid != v
    ensures var acts := SnapshotActs(self, n, ev, w.now, w.interval);
            AllCalm(acts, v, since) && Undisturbed(acts, v, since)
  {
  }

  lemma OldNewsActs(self: string, n: Node, ev: CloudEvent, w: Moment, v: int, since: int)
    requires !MigrationHere(self, ev) && !LifecycleHere(self, ev)
    requires IsSnapshot(ev) && SameNode(ev.node, self) && ev.state == "running" ==> ev.observed < since
    ensures AllCalm(HandleActs(self, n, ev, w), v, since) && Undisturbed(HandleActs(self, n, ev, w), v, since)
  {
    assert HandleActs(self, n, ev, w) == SnapshotActs(self, n, ev, w.now, w.interval);
  }

  lemma StopActs(self: string, n: Node, ev: CloudEvent, w: Moment, v: int, since: int)
    requires LocalStop(self, ev, v, since, w.now)
    ensures AllCalm(HandleActs(self, n, ev, w), v, since)
  {
  }

  lemma CalmMoveActs(env: Env, n: Node, mv: Move, p: Path, m: Node, v: int, xs: set<Addr>, since: int, staged: bool)
    requires Moves(env, n, mv, p, m) && CalmMove(env, n, mv, v, xs, since, staged)
    requires staged ==> Staying(n, v, since)
    ensures AllCalm(p.acts, v, since) && (staged ==> Undisturbed(p.acts, v, since))
  {
    if mv.Handle? && Harmless(env.self, mv.ev, v, since) {
      HarmlessActs(env.self, n, mv.ev, mv.w, v, since);
    } else if mv.Handle? && !staged {
      StopActs(env.self, n, mv.ev, mv.w, v, since);
    }
  }

  /** A calm turn leaves v where it was: not here. It announces nothing new for v, and lets go of the rest in time. */
  lemma CalmTurn(env: Env, n: Node, mv: Move, p: Path, m: Node, v: int, xs: set<Addr>, since: int, staged: bool)
    requires GoodText(env.text) && Leaving(env, n, v, xs, since) && (staged ==> Staying(n, v, since))
    requires Moves(env, n, mv, p, m) && CalmMove(env, n, mv, v, xs, since, staged)
    ensures Leaving(env, m, v, xs, since) && (staged ==> Staying(m, v, since))
    ensures Clear(n, xs) ==> Clear(m, xs) && NoAdverts(Log(p.ess), xs)
    ensures EndsFlawless(env, p) ==> Clear(m, xs)
  {
    CalmMoveActs(env, n, mv, p, m, v, xs, since, staged);
    MoveBrings(env, n, mv, p, m, v, xs);
    LeavingPath(env, n, p, m, v, xs, since);
    if staged {
      StayingPath(env, n, p, m, v, since);
    }
  }

  lemma SoundTurn(env: Env, n: Node, mv: Move, p: Path, m: Node, v: int, xs: set<Addr>)
    requires GoodText(env.text) && Sound(env, n, v, xs)
    requires Moves(env, n, mv, p, m) && BringsMove(env, n, mv, v, xs)
    ensures Sound(env, m, v, xs)
  {
    MoveBrings(env, n, mv, p, m, v, xs);
    SoundPath(env, n, p, m, v, xs);
  }

  // ---- The three turns of a migration ----

  /** A placement followed by the cutover path is two steps. */
  lemma TwoSteps(env: Env, n: Node, p: Path, m: Node)
    requires Leads(env, n, p, m) && |p.acts| == 2
    ensures Step(env, n, p.acts[0], p.ess[0], p.ns[1]) && Step(env, p.ns[1], p.acts[1], p.ess[1], m)
    ensures Log(p.ess) == p.ess[0] + p.ess[1]
  {
    LeadsInTwo(env, n, p, m);
    LogTwo(p.ess);
  }

  lemma LogTwo(ess: seq<seq<Event>>)
    requires |ess| == 2
    ensures Log(ess) == ess[0] + ess[1]
  {
    assert ess == [] + [ess[0]] + [ess[1]];
    LogOne([], ess[0]);
    LogOne([] + [ess[0]], ess[1]);
  }

  /** The event is not older than what the node already knows about the VM. */
  predicate Accepted(n: Node, v: int, t: int) {
    v in n.vms ==> !P.Rejected(n.vms[v], t, 0)
  }

  predicate StartsHere(self: string, mv: Move, v: int, t: int) {
    && mv.Handle? && mv.ev.vmid == v && Migrate(mv.ev, "started")
    && SameNode(mv.ev.target, self) && TimeOf(mv.ev, mv.w.now) == t
  }

  predicate SyncsTo(self: string, mv: Move, v: int) {
    && mv.Handle? && mv.ev.vmid == v && Migrate(mv.ev, "synced")
    && SameNode(mv.ev.target, self) && !SameNode(mv.ev.node, self)
  }

  predicate SyncsFrom(self: string, mv: Move, v: int, t: int) {
    && mv.Handle? && mv.ev.vmid == v && Migrate(mv.ev, "synced")
    && SameNode(mv.ev.node, self) && !SameNode(mv.ev.target, self) && TimeOf(mv.ev, mv.w.now) == t
  }

  lemma PlaceOnly(env: Env, n: Node, a: Act, es: seq<Event>, m: Node, v: int, xs: set<Addr>)
    requires Step(env, n, a, es, m) && a.Place?
    ensures es == [] && m.cache == n.cache && m.core == n.core && m.kernel == n.kernel
    ensures Sound(env, n, v, xs) ==> Sound(env, m, v, xs)
    ensures m.vms == P.SetStatus(n.vms, a.v, a.name, a.status, a.t)
  {
  }

  lemma PlaceStaged(env: Env, n: Node, name: string, es: seq<Event>, m: Node, v: int, t: int)
    requires Step(env, n, Place(v, name, P.Staged, t), es, m) && Accepted(n, v, t)
    ensures Staying(m, v, t) && NotHere(m, v, t)
  {
  }

  lemma PlaceAbsent(env: Env, n: Node, es: seq<Event>, m: Node, v: int, t: int)
    requires Step(env, n, Place(v, "", P.Absent, t), es, m) && Accepted(n, v, t)
    ensures NotHere(m, v, t)
  {
  }

  /** migrate.started on the target: v is staged and nothing is announced for it. */
  lemma StartedTurn(env: Env, n: Node, mv: Move, p: Path, m: Node, v: int, xs: set<Addr>, t: int)
    requires GoodText(env.text) && Quiet(env, n, v, xs, NEVER) && Accepted(n, v, t)
    requires Moves(env, n, mv, p, m) && StartsHere(env.self, mv, v, t)
    ensures Quiet(env, m, v, xs, t) && Staying(m, v, t) && NoAdverts(Log(p.ess), xs)
  {
    TwoSteps(env, n, p, m);
    var l := p.ns[1];
    PlaceOnly(env, n, p.acts[0], p.ess[0], l, v, xs);
    PlaceStaged(env, n, mv.ev.name, p.ess[0], l, v, t);
    LeavingStep(env, l, p.acts[1], p.ess[1], m, v, xs, t);
    StayingStep(env, l, p.acts[1], p.ess[1], m, v, t);
  }

  /** migrate.synced on the source: v is not here any more, and a cutover without errors takes its addresses down. */
  lemma SourceTurn(env: Env, n: Node, mv: Move, p: Path, m: Node, v: int, xs: set<Addr>, t: int)
    requires GoodText(env.text) && Sound(env, n, v, xs) && Accepted(n, v, t)
    requires Moves(env, n, mv, p, m) && SyncsFrom(env.self, mv, v, t)
    ensures Leaving(env, m, v, xs, t)
    ensures EndsFlawless(env, p) ==> Clear(m, xs)
  {
    TwoSteps(env, n, p, m);
    var l := p.ns[1];
    PlaceOnly(env, n, p.acts[0], p.ess[0], l, v, xs);
    PlaceAbsent(env, n, p.ess[0], l, v, t);
    LeavingStep(env, l, p.acts[1], p.ess[1], m, v, xs, t);
  }

  predicate FailsHere(self: string, mv: Move, v: int, t: int) {
    && mv.Handle? && mv.ev.vmid == v && Migrate(mv.ev, "failed")
    && SameNode(mv.ev.target, self) && TimeOf(mv.ev, mv.w.now) == t
  }

  lemma FailsHereActs(env: Env, n: Node, mv: Move, v: int, t: int)
    requires FailsHere(env.self, mv, v, t)
    ensures var acts := MoveActs(env.self, n, mv);
            && |acts| == 2 && acts[0] == Place(v, "", P.Absent, t)
            && (acts[1].Queue? || (acts[1].Apply? && acts[1].origin.FastPath?))
  {
  }

  /** migrate.failed on the target: v is not here, and nothing is announced for it. */
  lemma FailedTurn(env: Env, n: Node, mv: Move, p: Path, m: Node, v: int, xs: set<Addr>, t: int)
    requires GoodText(env.text) && Sound(env, n, v, xs) && Clear(n, xs) && Accepted(n, v, t)
    requires Moves(env, n, mv, p, m) && FailsHere(env.self, mv, v, t)
    ensures Quiet(env, m, v, xs, t) && NoAdverts(Log(p.ess), xs)
  {
    FailsHereActs(env, n, mv, v, t);
    TwoSteps(env, n, p, m);
    var l := p.ns[1];
    PlaceOnly(env, n, p.acts[0], p.ess[0], l, v, xs);
    PlaceAbsent(env, n, p.ess[0], l, v, t);
    LeavingStep(env, l, p.acts[1], p.ess[1], m, v, xs, t);
  }

  /** migrate.synced on the target: v is here from now on. */
  lemma TargetTurn(env: Env, n: Node, mv: Move, p: Path, m: Node, v: int, xs: set<Addr>)
    requires GoodText(env.text) && Sound(env, n, v, xs)
    requires SyncsTo(env.self, mv, v) && Accepted(n, v, TimeOf(mv.ev, mv.w.now))
    requires Moves(env, n, mv, p, m)
    ensures Sound(env, m, v, xs) && IsActive(m.vms, v)
  {
    SyncsToActs(env, n, mv, v);
    TwoSteps(env, n, p, m);
    PlaceOnly(env, n, p.acts[0], p.ess[0], p.ns[1], v, xs);
    PlaceActive(env, n, mv.ev.name, p.ess[0], p.ns[1], v, TimeOf(mv.ev, mv.w.now));
    CutsOnly(env, p.ns[1], p.acts[1], p.ess[1], m, v, xs);
    SoundStep(env, p.ns[1], p.acts[1], p.ess[1], m, v, xs);
  }

  lemma SyncsToActs(env: Env, n: Node, mv: Move, v: int)
    requires SyncsTo(env.self, mv, v)
    ensures var acts := MoveActs(env.self, n, mv);
            && |acts| == 2 && acts[0] == Place(v, mv.ev.name, P.Active, TimeOf(mv.ev, mv.w.now))
            && (acts[1].Queue? || (acts[1].Apply? && acts[1].origin.FastPath?))
  {
  }

  lemma PlaceActive(env: Env, n: Node, name: string, es: seq<Event>, m: Node, v: int, t: int)
    requires Step(env, n, Place(v, name, P.Active, t), es, m) && Accepted(n, v, t)
    ensures IsActive(m.vms, v)
  {
  }

  lemma CutsOnly(env: Env, n: Node, a: Act, es: seq<Event>, m: Node, v: int, xs: set<Addr>)
    requires Step(env, n, a, es, m) && (a.Queue? || (a.Apply? && a.origin.FastPath?))
    ensures m.vms == n.vms && Brings(env, n, a, v, xs)
  {
  }

  /** And a cutover that is warm and meets no error brings up exactly the addresses cached for v. */
  lemma TargetCutsOver(env: Env, n: Node, mv: Move, p: Path, m: Node, v: int, xs: set<Addr>)
    requires GoodText(env.text) && Sound(env, n, v, xs)
    requires SyncsTo(env.self, mv, v) && Accepted(n, v, TimeOf(mv.ev, mv.w.now))
    requires Moves(env, n, mv, p, m) && EndsFlawless(env, p) && v > 0 && At(n.cache.byVMID, v) != []
    ensures forall ip | ip in xs :: ip in m.kernel.lo <==> HasIP(n.cache.byVMID[v], ip)
  {
    SyncsToActs(env, n, mv, v);
    TwoSteps(env, n, p, m);
    var l := p.ns[1];
    PlaceOnly(env, n, p.acts[0], p.ess[0], l, v, xs);
    PlaceActive(env, n, mv.ev.name, p.ess[0], l, v, TimeOf(mv.ev, mv.w.now));
    CachedIsProgrammed(env, l, p.acts[1], v);
    FlawlessScopes(env, l, p.acts[1], p.ess[1], m, v, xs);
  }

  /** The cutover path programs an active VM with what the cache lists for it, if it lists anything. */
  lemma CachedIsProgrammed(env: Env, n: Node, a: Act, v: int)
    requires a.Apply? && a.origin.FastPath? && Listed(env, n, a.origin, a.all)
    requires IsActive(n.vms, v) && v > 0 && Filed(n.cache) && At(n.cache.byVMID, v) != []
    ensures OfVM(a.all, v) == n.cache.byVMID[v]
    ensures v in Programmed(env, n, a) && Programmed(env, n, a)[v] == n.cache.byVMID[v]
  {
    ListingOfVM(n.cache, a.all, v);
  }

  /** The last step of p is an apply without errors that is handed ip for v, which is active, and can back it up. */
  ghost predicate EndsServing(env: Env, p: Path, v: int, ip: Addr) {
    && EndsFlawless(env, p)
    && var k := |p.acts| - 1;
       IsActive(p.ns[k + 1].vms, v) && HasIP(OfVM(p.acts[k].all, v), ip) && !p.ns[k].backup.closed
  }

  /** Such a turn brings ip up. */
  lemma ServingTurn(env: Env, n: Node, mv: Move, p: Path, m: Node, v: int, xs: set<Addr>, ip: Addr)
    requires GoodText(env.text) && Sound(env, n, v, xs)
    requires Moves(env, n, mv, p, m) && BringsMove(env, n, mv, v, xs) && EndsServing(env, p, v, ip)
    ensures Serves(m, v, ip) && ip in m.kernel.lo
  {
    var k := |p.acts| - 1;
    LeadsFront(env, n, p, m);
    MoveBrings(env, n, mv, p, m, v, xs);
    FrontBrings(env, p, v, xs);
    SoundPath(env, n, Front(p), p.ns[k], v, xs);
    BeginsToServe(env, p.ns[k], p.acts[k], p.ess[k], m, v, ip);
  }

  /** Why migrate.started has to come first: a local start takes an inactive VM on exactly if it is not staged. */
  lemma LocalStartActivates(env: Env, n: Node, mv: Move, p: Path, m: Node, v: int)
    requires mv.Handle? && LocalStart(env.self, mv.ev, v) && Accepted(n, v, TimeOf(mv.ev, mv.w.now))
    requires Moves(env, n, mv, p, m) && !IsActive(n.vms, v)
    ensures IsActive(m.vms, v) <==> !(v in n.vms && n.vms[v].status == P.Staged)
  {
    if v in n.vms && n.vms[v].status == P.Staged {
      assert p.acts == [] && m == n;
    } else {
      TwoSteps(env, n, p, m);
      PlaceOnly(env, n, p.acts[0], p.ess[0], p.ns[1], v, {});
    }
  }

  // ---- Two nodes ----

  datatype Side = Source | Target

  datatype Cluster = Cluster(source: Node, target: Node)

  /** One turn of one of the nodes; p is the stretch of its run. */
  datatype Turn = Turn(side: Side, mv: Move, p: Path)

  ghost predicate TurnOf(s: Env, t: Env, c: Cluster, turn: Turn, d: Cluster) {
    match turn.side
    case Source => Moves(s, c.source, turn.mv, turn.p, d.source) && d.target == c.target
    case Target => Moves(t, c.target, turn.mv, turn.p, d.target) && d.source == c.source
  }

  /** The turns lead through the states cs, whichever node's turn it is. */
  ghost predicate Turns(s: Env, t: Env, cs: seq<Cluster>, ts: seq<Turn>) {
    |cs| == |ts| + 1 && forall i, j | 0 <= i < j < |cs| && j == i + 1 :: TurnOf(s, t, cs[i], ts[i], cs[j])
  }

  lemma TurnAt(s: Env, t: Env, cs: seq<Cluster>, ts: seq<Turn>, k: nat)
    requires Turns(s, t, cs, ts) && k < |ts|
    ensures TurnOf(s, t, cs[k], ts[k], cs[k + 1])
  {
  }

  // ---- The target ----

  /**
   What the target hears about v before turn synced: calm turns, migrate.started at turn
   started, time at, and after it also local starts but no expiry of the staged marker.
   */
  ghost predicate TargetScript(t: Env, cs: seq<Cluster>, ts: seq<Turn>, v: int, xs: set<Addr>, started: nat, at: int,
                               synced: nat)
    requires |cs| == |ts| + 1 && synced <= |ts|
  {
    && (forall k | 0 <= k < synced && k < started && ts[k].side == Target ::
          CalmMove(t, cs[k].target, ts[k].mv, v, xs, NEVER, false))
    && (forall k | 0 <= k < synced && k == started ::
          ts[k].side == Target && StartsHere(t.self, ts[k].mv, v, at) && Accepted(cs[k].target, v, at))
    && (forall k | started < k < synced && ts[k].side == Target ::
          CalmMove(t, cs[k].target, ts[k].mv, v, xs, at, true))
  }

  ghost predicate TargetQuiet(t: Env, n: Node, v: int, xs: set<Addr>, begun: bool, at: int) {
    if begun then Quiet(t, n, v, xs, at) && Staying(n, v, at) else Quiet(t, n, v, xs, NEVER)
  }

  predicate SilentTurn(turn: Turn, side: Side, xs: set<Addr>) {
    turn.side == side ==> NoAdverts(Log(turn.p.ess), xs)
  }

  lemma TargetNext(s: Env, t: Env, cs: seq<Cluster>, ts: seq<Turn>, v: int, xs: set<Addr>, started: nat, at: int,
                   synced: nat, k: nat)
    requires GoodText(t.text) && Turns(s, t, cs, ts) && synced <= |ts| && k < synced
    requires TargetScript(t, cs, ts, v, xs, started, at, synced)
    requires TargetQuiet(t, cs[k].target, v, xs, k > started, at)
    ensures TargetQuiet(t, cs[k + 1].target, v, xs, k + 1 > started, at) && SilentTurn(ts[k], Target, xs)
  {
    TurnAt(s, t, cs, ts, k);
    var n, m := cs[k].target, cs[k + 1].target;
    if ts[k].side == Target {
      if k == started {
        StartedTurn(t, n, ts[k].mv, ts[k].p, m, v, xs, at);
      } else {
        CalmTurn(t, n, ts[k].mv, ts[k].p, m, v, xs, if k > started then at else NEVER, k > started);
      }
    }
  }

  /** Until it has processed migrate.synced the target is quiet about the VM. */
  lemma {:induction false} SilentUntilSynced(s: Env, t: Env, cs: seq<Cluster>, ts: seq<Turn>, v: int, xs: set<Addr>,
                                             started: nat, at: int, synced: nat, k: nat)
    requires GoodText(t.text) && Turns(s, t, cs, ts) && synced <= |ts| && k <= synced
    requires TargetScript(t, cs, ts, v, xs, started, at, synced)
    requires Quiet(t, cs[0].target, v, xs, NEVER)
    ensures TargetQuiet(t, cs[k].target, v, xs, k > started, at)
  {
    if k > 0 {
      SilentUntilSynced(s, t, cs, ts, v, xs, started, at, synced, k - 1);
      TargetNext(s, t, cs, ts, v, xs, started, at, synced, k - 1);
    }
  }

  /** At no moment of any turn before that does it announce one of the VM's addresses. */
  lemma SilentTurnsUntilSynced(s: Env, t: Env, cs: seq<Cluster>, ts: seq<Turn>, v: int, xs: set<Addr>,
                               started: nat, at: int, synced: nat, k: nat)
    requires GoodText(t.text) && Turns(s, t, cs, ts) && synced <= |ts| && k < synced
    requires TargetScript(t, cs, ts, v, xs, started, at, synced)
    requires Quiet(t, cs[0].target, v, xs, NEVER)
    ensures SilentTurn(ts[k], Target, xs)
  {
    SilentUntilSynced(s, t, cs, ts, v, xs, started, at, synced, k);
    TargetNext(s, t, cs, ts, v, xs, started, at, synced, k);
  }

  // If the migration fails.

  /** The target hears in turn failed, time at, that the migration failed, and nothing that is news about v since. */
  ghost predicate FailsOver(t: Env, cs: seq<Cluster>, ts: seq<Turn>, v: int, xs: set<Addr>, failed: nat, at: int)
    requires |cs| == |ts| + 1 && failed < |ts|
  {
    && ts[failed].side == Target && FailsHere(t.self, ts[failed].mv, v, at) && Accepted(cs[failed].target, v, at)
    && (forall k | failed < k < |ts| && ts[k].side == Target :: CalmMove(t, cs[k].target, ts[k].mv, v, xs, at, false))
  }

  lemma FailedNext(s: Env, t: Env, cs: seq<Cluster>, ts: seq<Turn>, v: int, xs: set<Addr>, failed: nat, at: int, k: nat)
    requires GoodText(t.text) && Turns(s, t, cs, ts) && failed <= k < |ts|
    requires FailsOver(t, cs, ts, v, xs, failed, at)
    requires if k == failed then Sound(t, cs[k].target, v, xs) && Clear(cs[k].target, xs)
             else Quiet(t, cs[k].target, v, xs, at)
    ensures Quiet(t, cs[k + 1].target, v, xs, at) && SilentTurn(ts[k], Target, xs)
  {
    TurnAt(s, t, cs, ts, k);
    if k == failed {
      FailedTurn(t, cs[k].target, ts[k].mv, ts[k].p, cs[k + 1].target, v, xs, at);
    } else if ts[k].side == Target {
      CalmTurn(t, cs[k].target, ts[k].mv, ts[k].p, cs[k + 1].target, v, xs, at, false);
    }
  }

  lemma {:induction false} QuietAfterFailure(s: Env, t: Env, cs: seq<Cluster>, ts: seq<Turn>, v: int, xs: set<Addr>,
                                             failed: nat, at: int, k: nat)
    requires GoodText(t.text) && Turns(s, t, cs, ts) && failed < k <= |ts|
    requires FailsOver(t, cs, ts, v, xs, failed, at)
    requires Sound(t, cs[failed].target, v, xs) && Clear(cs[failed].target, xs)
    ensures Quiet(t, cs[k].target, v, xs, at)
  {
    if k > failed + 1 {
      QuietAfterFailure(s, t, cs, ts, v, xs, failed, at, k - 1);
    }
    FailedNext(s, t, cs, ts, v, xs, failed, at, k - 1);
  }

  /** A migration that fails has never made the target announce one of the VM's addresses, and never will. */
  lemma FailedIsSilent(s: Env, t: Env, cs: seq<Cluster>, ts: seq<Turn>, v: int, xs: set<Addr>, started: nat,
                       startedAt: int, failed: nat, failedAt: int, k: nat)
    requires GoodText(t.text) && Turns(s, t, cs, ts) && failed < |ts| && k < |cs|
    requires Quiet(t, cs[0].target, v, xs, NEVER) && TargetScript(t, cs, ts, v, xs, started, startedAt, failed)
    requires FailsOver(t, cs, ts, v, xs, failed, failedAt)
    ensures Clear(cs[k].target, xs) && !IsActive(cs[k].target.vms, v)
    ensures k < |ts| ==> SilentTurn(ts[k], Target, xs)
  {
    var j := if k <= failed then k else failed;
    SilentUntilSynced(s, t, cs, ts, v, xs, started, startedAt, failed, j);
    if k < failed {
      SilentTurnsUntilSynced(s, t, cs, ts, v, xs, started, startedAt, failed, k);
    } else {
      if k > failed { QuietAfterFailure(s, t, cs, ts, v, xs, failed, failedAt, k); }
      if k < |ts| { FailedNext(s, t, cs, ts, v, xs, failed, failedAt, k); }
    }
  }

  // From migrate.synced on.

  /** The target takes v on in turn taken and hears nothing that gives v's addresses away until turn up. */
  ghost predicate TakesOn(t: Env, cs: seq<Cluster>, ts: seq<Turn>, v: int, xs: set<Addr>, taken: nat, up: nat)
    requires |cs| == |ts| + 1 && taken <= up < |ts|
  {
    && ts[taken].side == Target && SyncsTo(t.self, ts[taken].mv, v)
    && Accepted(cs[taken].target, v, TimeOf(ts[taken].mv.ev, ts[taken].mv.w.now))
    && (forall k | taken < k <= up && ts[k].side == Target :: BringsMove(t, cs[k].target, ts[k].mv, v, xs))
  }

  /** In turn up it meets no error and is handed ip for v; afterwards its turns leave v active and ip to v. */
  ghost predicate KeepsUp(t: Env, ts: seq<Turn>, v: int, ip: Addr, up: nat)
    requires up < |ts|
  {
    ts[up].side == Target && EndsServing(t, ts[up].p, v, ip) && SustainedAfter(ts, v, ip, up)
  }

  predicate SustainedAfter(ts: seq<Turn>, v: int, ip: Addr, up: nat) {
    forall k | up < k < |ts| && ts[k].side == Target ::
      |ts[k].p.ns| == |ts[k].p.acts| + 1 && PathSustains(ts[k].p, v, ip)
  }

  lemma TakenNext(s: Env, t: Env, cs: seq<Cluster>, ts: seq<Turn>, v: int, xs: set<Addr>, taken: nat, up: nat, k: nat)
    requires GoodText(t.text) && Turns(s, t, cs, ts) && taken <= k <= up < |ts|
    requires TakesOn(t, cs, ts, v, xs, taken, up) && Sound(t, cs[k].target, v, xs)
    ensures Sound(t, cs[k + 1].target, v, xs)
  {
    TurnAt(s, t, cs, ts, k);
    if ts[k].side == Target {
      SoundTurn(t, cs[k].target, ts[k].mv, ts[k].p, cs[k + 1].target, v, xs);
    }
  }

  lemma {:induction false} SoundUntilUp(s: Env, t: Env, cs: seq<Cluster>, ts: seq<Turn>, v: int, xs: set<Addr>,
                                        taken: nat, up: nat, k: nat)
    requires GoodText(t.text) && Turns(s, t, cs, ts) && taken <= k <= up < |ts|
    requires TakesOn(t, cs, ts, v, xs, taken, up) && Sound(t, cs[taken].target, v, xs)
    ensures Sound(t, cs[k].target, v, xs)
  {
    if k > taken {
      SoundUntilUp(s, t, cs, ts, v, xs, taken, up, k - 1);
      TakenNext(s, t, cs, ts, v, xs, taken, up, k - 1);
    }
  }

  lemma ComesUp(s: Env, t: Env, cs: seq<Cluster>, ts: seq<Turn>, v: int, xs: set<Addr>, ip: Addr, taken: nat, up: nat)
    requires GoodText(t.text) && Turns(s, t, cs, ts) && taken <= up < |ts|
    requires TakesOn(t, cs, ts, v, xs, taken, up) && Sound(t, cs[taken].target, v, xs)
    requires ts[up].side == Target && EndsServing(t, ts[up].p, v, ip)
    ensures Inv(t, cs[up + 1].target) && Serves(cs[up + 1].target, v, ip)
  {
    SoundUntilUp(s, t, cs, ts, v, xs, taken, up, up);
    TakenNext(s, t, cs, ts, v, xs, taken, up, up);
    TurnAt(s, t, cs, ts, up);
    ServingTurn(t, cs[up].target, ts[up].mv, ts[up].p, cs[up + 1].target, v, xs, ip);
  }

  /** ip is on the loopback of the node whose turn it is, from the first to the last operation. */
  ghost predicate UpDuring(turn: Turn, side: Side, k: Kernel, ip: Addr) {
    turn.side == side ==> UpThroughout(k, Log(turn.p.ess), ip)
  }

  lemma UpNext(s: Env, t: Env, cs: seq<Cluster>, ts: seq<Turn>, v: int, ip: Addr, up: nat, k: nat)
    requires GoodText(t.text) && Turns(s, t, cs, ts) && up < k < |ts| && SustainedAfter(ts, v, ip, up)
    requires Inv(t, cs[k].target) && Serves(cs[k].target, v, ip)
    ensures Inv(t, cs[k + 1].target) && Serves(cs[k + 1].target, v, ip)
    ensures UpDuring(ts[k], Target, cs[k].target.kernel, ip)
  {
    TurnAt(s, t, cs, ts, k);
    if ts[k].side == Target {
      ServedPath(t, cs[k].target, ts[k].p, cs[k + 1].target, v, ip);
    }
  }

  lemma {:induction false} StaysUp(s: Env, t: Env, cs: seq<Cluster>, ts: seq<Turn>, v: int, ip: Addr, up: nat, k: nat)
    requires GoodText(t.text) && Turns(s, t, cs, ts) && up < k <= |ts| && SustainedAfter(ts, v, ip, up)
    requires Inv(t, cs[up + 1].target) && Serves(cs[up + 1].target, v, ip)
    ensures Inv(t, cs[k].target) && Serves(cs[k].target, v, ip)
  {
    if k > up + 1 {
      StaysUp(s, t, cs, ts, v, ip, up, k - 1);
      UpNext(s, t, cs, ts, v, ip, up, k - 1);
    }
  }

  /** From its first cutover or reconcile without errors on, the target announces the VM's address at every moment. */
  lemma TakesOver(s: Env, t: Env, cs: seq<Cluster>, ts: seq<Turn>, v: int, xs: set<Addr>, ip: Addr,
                  taken: nat, up: nat, k: nat)
    requires GoodText(t.text) && Turns(s, t, cs, ts) && taken <= up < |ts| && up < k <= |ts|
    requires TakesOn(t, cs, ts, v, xs, taken, up) && Sound(t, cs[taken].target, v, xs)
    requires KeepsUp(t, ts, v, ip, up)
    ensures ip in cs[k].target.core.announced.ips && ip in cs[k].target.kernel.lo
    ensures k < |ts| ==> UpDuring(ts[k], Target, cs[k].target.kernel, ip)
  {
    ComesUp(s, t, cs, ts, v, xs, ip, taken, up);
    StaysUp(s, t, cs, ts, v, ip, up, k);
    if k < |ts| {
      UpNext(s, t, cs, ts, v, ip, up, k);
    }
  }

  // ---- The source ----

  /**
   The source processes migrate.synced of time at in turn synced; before that anything may
   happen there that leaves v's addresses to v, and afterwards v does not come back. The
   first apply without errors from then on ends turn gone.
   */
  ghost predicate SourceScript(s: Env, cs: seq<Cluster>, ts: seq<Turn>, v: int, xs: set<Addr>, at: int, synced: nat,
                               gone: nat)
    requires |cs| == |ts| + 1 && synced <= gone < |ts|
  {
    && (forall k | 0 <= k < synced && ts[k].side == Source :: BringsMove(s, cs[k].source, ts[k].mv, v, xs))
    && ts[synced].side == Source && SyncsFrom(s.self, ts[synced].mv, v, at) && Accepted(cs[synced].source, v, at)
    && CalmAfter(s, cs, ts, v, xs, at, synced)
    && ts[gone].side == Source && EndsFlawless(s, ts[gone].p)
  }

  /** After turn synced the source hears nothing that is news about v since the time at. */
  ghost predicate CalmAfter(s: Env, cs: seq<Cluster>, ts: seq<Turn>, v: int, xs: set<Addr>, at: int, synced: nat)
    requires |cs| == |ts| + 1
  {
    forall k | synced < k < |ts| && ts[k].side == Source :: CalmMove(s, cs[k].source, ts[k].mv, v, xs, at, false)
  }

  lemma SoundNext(s: Env, t: Env, cs: seq<Cluster>, ts: seq<Turn>, v: int, xs: set<Addr>, at: int, synced: nat,
                  gone: nat, k: nat)
    requires GoodText(s.text) && Turns(s, t, cs, ts) && synced <= gone < |ts| && k < synced
    requires SourceScript(s, cs, ts, v, xs, at, synced, gone) && Sound(s, cs[k].source, v, xs)
    ensures Sound(s, cs[k + 1].source, v, xs)
  {
    TurnAt(s, t, cs, ts, k);
    if ts[k].side == Source {
      SoundTurn(s, cs[k].source, ts[k].mv, ts[k].p, cs[k + 1].source, v, xs);
    }
  }

  lemma {:induction false} SoundUntilSynced(s: Env, t: Env, cs: seq<Cluster>, ts: seq<Turn>, v: int, xs: set<Addr>,
                                            at: int, synced: nat, gone: nat, k: nat)
    requires GoodText(s.text) && Turns(s, t, cs, ts) && synced <= gone < |ts| && k <= synced
    requires SourceScript(s, cs, ts, v, xs, at, synced, gone) && Sound(s, cs[0].source, v, xs)
    ensures Sound(s, cs[k].source, v, xs)
  {
    if k > 0 {
      SoundUntilSynced(s, t, cs, ts, v, xs, at, synced, gone, k - 1);
      SoundNext(s, t, cs, ts, v, xs, at, synced, gone, k - 1);
    }
  }

  lemma LeavesAtSync(s: Env, t: Env, cs: seq<Cluster>, ts: seq<Turn>, v: int, xs: set<Addr>, at: int, synced: nat,
                     gone: nat)
    requires GoodText(s.text) && Turns(s, t, cs, ts) && synced <= gone < |ts|
    requires SourceScript(s, cs, ts, v, xs, at, synced, gone) && Sound(s, cs[0].source, v, xs)
    ensures Leaving(s, cs[synced + 1].source, v, xs, at)
    ensures synced == gone ==> Clear(cs[synced + 1].source, xs)
  {
    SoundUntilSynced(s, t, cs, ts, v, xs, at, synced, gone, synced);
    TurnAt(s, t, cs, ts, synced);
    SourceTurn(s, cs[synced].source, ts[synced].mv, ts[synced].p, cs[synced + 1].source, v, xs, at);
  }

  lemma LeavesNext(s: Env, t: Env, cs: seq<Cluster>, ts: seq<Turn>, v: int, xs: set<Addr>, at: int, synced: nat, k: nat)
    requires GoodText(s.text) && Turns(s, t, cs, ts) && synced < k < |ts|
    requires CalmAfter(s, cs, ts, v, xs, at, synced) && Leaving(s, cs[k].source, v, xs, at)
    ensures Leaving(s, cs[k + 1].source, v, xs, at)
    ensures Clear(cs[k].source, xs) ==> Clear(cs[k + 1].source, xs) && SilentTurn(ts[k], Source, xs)
    ensures ts[k].side == Source && EndsFlawless(s, ts[k].p) ==> Clear(cs[k + 1].source, xs)
  {
    TurnAt(s, t, cs, ts, k);
    if ts[k].side == Source {
      CalmTurn(s, cs[k].source, ts[k].mv, ts[k].p, cs[k + 1].source, v, xs, at, false);
    }
  }

  /** Between migrate.synced and the first apply without errors v is not here, though its addresses may be. */
  lemma {:induction false} LeavesOn(s: Env, t: Env, cs: seq<Cluster>, ts: seq<Turn>, v: int, xs: set<Addr>, at: int,
                                    synced: nat, k: nat)
    requires GoodText(s.text) && Turns(s, t, cs, ts) && synced < k <= |ts|
    requires CalmAfter(s, cs, ts, v, xs, at, synced) && Leaving(s, cs[synced + 1].source, v, xs, at)
    ensures Leaving(s, cs[k].source, v, xs, at)
  {
    if k > synced + 1 {
      LeavesOn(s, t, cs, ts, v, xs, at, synced, k - 1);
      LeavesNext(s, t, cs, ts, v, xs, at, synced, k - 1);
    }
  }

  lemma {:induction false} GoneOn(s: Env, t: Env, cs: seq<Cluster>, ts: seq<Turn>, v: int, xs: set<Addr>, at: int,
                                  synced: nat, gone: nat, k: nat)
    requires GoodText(s.text) && Turns(s, t, cs, ts) && synced <= gone < k <= |ts|
    requires CalmAfter(s, cs, ts, v, xs, at, synced) && Quiet(s, cs[gone + 1].source, v, xs, at)
    ensures Quiet(s, cs[k].source, v, xs, at)
  {
    if k > gone + 1 {
      GoneOn(s, t, cs, ts, v, xs, at, synced, gone, k - 1);
      LeavesNext(s, t, cs, ts, v, xs, at, synced, k - 1);
    }
  }

  lemma GoneAt(s: Env, t: Env, cs: seq<Cluster>, ts: seq<Turn>, v: int, xs: set<Addr>, at: int, synced: nat, gone: nat)
    requires GoodText(s.text) && Turns(s, t, cs, ts) && synced <= gone < |ts|
    requires SourceScript(s, cs, ts, v, xs, at, synced, gone) && Sound(s, cs[0].source, v, xs)
    ensures Quiet(s, cs[gone + 1].source, v, xs, at)
  {
    LeavesAtSync(s, t, cs, ts, v, xs, at, synced, gone);
    if synced < gone {
      LeavesOn(s, t, cs, ts, v, xs, at, synced, gone);
      LeavesNext(s, t, cs, ts, v, xs, at, synced, gone);
    }
  }

  /** Once the source has let go it stays quiet, late snapshots of the VM running there notwithstanding. */
  lemma GoneAfterSync(s: Env, t: Env, cs: seq<Cluster>, ts: seq<Turn>, v: int, xs: set<Addr>, at: int, synced: nat,
                      gone: nat, k: nat)
    requires GoodText(s.text) && Turns(s, t, cs, ts) && synced <= gone < |ts| && gone < k <= |ts|
    requires SourceScript(s, cs, ts, v, xs, at, synced, gone) && Sound(s, cs[0].source, v, xs)
    ensures Quiet(s, cs[k].source, v, xs, at)
    ensures k < |ts| ==> SilentTurn(ts[k], Source, xs)
  {
    GoneAt(s, t, cs, ts, v, xs, at, synced, gone);
    GoneOn(s, t, cs, ts, v, xs, at, synced, gone, k);
    if k < |ts| {
      LeavesNext(s, t, cs, ts, v, xs, at, synced, k);
    }
  }

  // Until migrate.synced it serves the address.

  predicate SustainedBefore(ts: seq<Turn>, v: int, ip: Addr, left: nat) {
    forall k | 0 <= k < left && k < |ts| && ts[k].side == Source ::
      |ts[k].p.ns| == |ts[k].p.acts| + 1 && PathSustains(ts[k].p, v, ip)
  }

  lemma ServesNext(s: Env, t: Env, cs: seq<Cluster>, ts: seq<Turn>, v: int, ip: Addr, left: nat, k: nat)
    requires GoodText(s.text) && Turns(s, t, cs, ts) && k < left <= |ts| && SustainedBefore(ts, v, ip, left)
    requires Inv(s, cs[k].source) && Serves(cs[k].source, v, ip)
    ensures Inv(s, cs[k + 1].source) && Serves(cs[k + 1].source, v, ip)
    ensures UpDuring(ts[k], Source, cs[k].source.kernel, ip)
  {
    TurnAt(s, t, cs, ts, k);
    if ts[k].side == Source {
      ServedPath(s, cs[k].source, ts[k].p, cs[k + 1].source, v, ip);
    }
  }

  lemma {:induction false} ServesUntilSynced(s: Env, t: Env, cs: seq<Cluster>, ts: seq<Turn>, v: int, ip: Addr,
                                             left: nat, k: nat)
    requires GoodText(s.text) && Turns(s, t, cs, ts) && k <= left <= |ts| && SustainedBefore(ts, v, ip, left)
    requires Inv(s, cs[0].source) && Serves(cs[0].source, v, ip)
    ensures Inv(s, cs[k].source) && Serves(cs[k].source, v, ip)
  {
    if k > 0 {
      ServesUntilSynced(s, t, cs, ts, v, ip, left, k - 1);
      ServesNext(s, t, cs, ts, v, ip, left, k - 1);
    }
  }

  // ---- The migration ----

  /** The address is up on one of the nodes, and stays up on it throughout turn k. */
  ghost predicate SomewhereUp(c: Cluster, turn: Turn, ip: Addr) {
    || (ip in c.source.kernel.lo && UpDuring(turn, Source, c.source.kernel, ip))
    || (ip in c.target.kernel.lo && UpDuring(turn, Target, c.target.kernel, ip))
  }

  /**
   The source announces ip at every moment up to its own migrate.synced (turn left), if its
   turns sustain it. So if the target is up before that, there is no moment of the whole
   migration at which neither announces it.
   */
  lemma HandsOver(s: Env, t: Env, cs: seq<Cluster>, ts: seq<Turn>, v: int, xs: set<Addr>, ip: Addr, taken: nat,
                  up: nat, left: nat, k: nat)
    requires GoodText(s.text) && GoodText(t.text) && Turns(s, t, cs, ts)
    requires taken <= up < left < |ts| && k < |ts|
    requires Inv(s, cs[0].source) && Serves(cs[0].source, v, ip) && SustainedBefore(ts, v, ip, left)
    requires TakesOn(t, cs, ts, v, xs, taken, up) && Sound(t, cs[taken].target, v, xs) && KeepsUp(t, ts, v, ip, up)
    ensures k < left ==> ip in cs[k].source.core.announced.ips && UpDuring(ts[k], Source, cs[k].source.kernel, ip)
    ensures SomewhereUp(cs[k], ts[k], ip)
  {
    if k < left {
      ServesUntilSynced(s, t, cs, ts, v, ip, left, k);
      ServesNext(s, t, cs, ts, v, ip, left, k);
    } else {
      TakesOver(s, t, cs, ts, v, xs, ip, taken, up, k);
    }
  }

  /**
   Over every interleaving: the target is silent about the VM's addresses until it has
   processed migrate.synced (turn taken). From its first apply without errors after that
   (turn up) it announces ip at every moment. The source is silent for good from its first
   apply without errors after its own migrate.synced (turn gone). So once both have got
   that far, only the target announces the VM.
   */
  lemma OnlyTargetAdvertises(s: Env, t: Env, cs: seq<Cluster>, ts: seq<Turn>, v: int, xs: set<Addr>, ip: Addr,
                             started: nat, startedAt: int, taken: nat, up: nat, left: nat, leftAt: int, gone: nat,
                             k: nat)
    requires GoodText(s.text) && GoodText(t.text) && Turns(s, t, cs, ts) && k < |cs|
    requires taken <= up < |ts| && left <= gone < |ts|
    requires Quiet(t, cs[0].target, v, xs, NEVER) && Sound(s, cs[0].source, v, xs)
    requires TargetScript(t, cs, ts, v, xs, started, startedAt, taken)
    requires TakesOn(t, cs, ts, v, xs, taken, up) && KeepsUp(t, ts, v, ip, up)
    requires SourceScript(s, cs, ts, v, xs, leftAt, left, gone)
    ensures k <= taken ==> Clear(cs[k].target, xs) && !IsActive(cs[k].target.vms, v)
    ensures k < taken ==> SilentTurn(ts[k], Target, xs)
    ensures k > up ==> ip in cs[k].target.core.announced.ips && ip in cs[k].target.kernel.lo
    ensures up < k < |ts| ==> UpDuring(ts[k], Target, cs[k].target.kernel, ip)
    ensures k > gone ==> Clear(cs[k].source, xs) && !IsActive(cs[k].source.vms, v)
    ensures gone < k < |ts| ==> SilentTurn(ts[k], Source, xs)
  {
    if k <= taken {
      SilentUntilSynced(s, t, cs, ts, v, xs, started, startedAt, taken, k);
    }
    if k < taken {
      SilentTurnsUntilSynced(s, t, cs, ts, v, xs, started, startedAt, taken, k);
    }
    if k > up {
      SilentUntilSynced(s, t, cs, ts, v, xs, started, startedAt, taken, taken);
      TakesOver(s, t, cs, ts, v, xs, ip, taken, up, k);
    }
    if k > gone {
      GoneAfterSync(s, t, cs, ts, v, xs, leftAt, left, gone, k);
    }
  }
}
