/**
 The assumptions of the other results can be met: every step can be taken, and a whole
 migration happens as the migration result assumes.
 */
module Feasibility {
  import opened Options
  import opened Text
  import opened Net
  import B = Backup
  import P = Placement
  import opened MappingCache
  import opened Kernels
  import opened Apply
  import opened ApplySteps
  import opened Nodes
  import opened Events
  import opened RunSafety
  import opened Ownership
  import opened Serving
  import opened Migration
  import G = FetchGate

  lemma ListingExists(c: Cache) returns (all: seq<Mapping>)
    ensures IsListing(c, all)
  {
    var ks, ns := Enumeration(c.byVMID.Keys), Enumeration(c.pending.Keys);
    all := Concat(c.byVMID, ks) + Concat(c.pending, ns);
    assert ListedAs(c, ks, ns, all);
  }

  lemma PassExists(a: Announced, desired: set<Addr>, f: Faults) returns (pass: seq<Event>)
    ensures PassEvents(a, desired, f, pass)
  {
    var ads, wds := Enumeration(desired - a.ips), Enumeration(a.ips - desired);
    pass := AdEvents(ads, f) + WdEvents(wds, f);
    assert PassEventsAs(ads, wds, a, desired, f, pass);
  }

  lemma ApplyStepExists(text: Addr -> string, c: Core, k: Kernel, applied: map<int, seq<Mapping>>,
                        managed: set<Addr>, f: Faults)
    returns (es: seq<Event>)
    ensures ApplyStep(text, c, k, applied, managed, f, es, CoreAfter(text, c, k, applied, managed, f), Replay(k, es))
  {
    var pass := PassExists(Begun(c, k, managed, f), Externals(applied), f);
    var nft := NftEvents(text, c, applied, f);
    HalvesMakeApply(text, c, k, applied, managed, f, pass);
    es := if BgpFirst(text, c, applied) then pass + nft else if Failed(text, c, applied, f) then nft else nft + pass;
  }

  /** Whatever goes wrong on the way, an apply has an outcome. */
  lemma ApplyHappens(env: Env, n: Node, o: Origin, all: seq<Mapping>, t: Trouble) returns (es: seq<Event>, m: Node)
    requires Listed(env, n, o, all)
    ensures Step(env, n, Act.Apply(o, all, t), es, m)
  {
    var j := JobOf(env, n, o, all, t);
    var cache, backup := PreparedCache(env, n, o, all), BackupAfter(j);
    es := ApplyStepExists(env.text, n.core, n.kernel, Applied(j), Managed(cache, backup), t.kernel);
    m := Node(PreparedVms(n, o), backup, cache,
              CoreAfter(env.text, n.core, n.kernel, Applied(j), Managed(cache, backup), t.kernel),
              Replay(n.kernel, es), n.gate, n.queued);
  }

  /** Every other step has one too. */
  lemma StepHappens(env: Env, n: Node, a: Act) returns (es: seq<Event>, m: Node)
    requires a.Apply? ==> Listed(env, n, a.origin, a.all)
    ensures Step(env, n, a, es, m)
  {
    es, m := [], n;
    match a
    case Place(v, name, status, t) => m := n.(vms := P.SetStatus(n.vms, v, name, status, t));
    case Observe(v, name, running, observed) => m := n.(vms := P.Observe(n.vms, v, name, running, observed));
    case ExpireStaged(cutoff) => m := n.(vms := P.ExpireAll(n.vms, cutoff));
    case Queue => m := n.(queued := true);
    case Dequeue => m := n.(queued := false);
    case RecordFetch(now) => m := n.(gate := G.Gate(now, G.KeyOf(G.Held(n.vms))));
    case SeedCache(ms) => m := n.(cache := Rebuild(ms));
    case WarmBackup(scan) => m := n.(backup := B.Warm(n.backup, scan));
    case FlushBackup(fails) => m := n.(backup := B.Flush(n.backup, fails));
    case CloseBackup(fails) => m := n.(backup := B.Step(n.backup, B.Close(fails)));
    case FlushRoutes(f) =>
      es := PassExists(n.core.announced, {}, f);
      m := n.(core := n.core.(announced := Pass(n.core.announced, {}, f)), kernel := Replay(n.kernel, es));
    case Apply(o, all, t) => es, m := ApplyHappens(env, n, o, all, t);
  }

  // ---- A migration without trouble ----

  const NO_TROUBLE := Trouble(Faults(None, {}, {}, false), {})

  lemma CutOverHappens(env: Env, n: Node, v: int, name: string, status: P.Status, t: int)
    returns (listing: seq<Mapping>, p: Path, m: Node)
    requires n.cache.ready
    ensures Leads(env, n, p, m) && EndsFlawless(env, p)
    ensures p.acts == [Place(v, name, status, t), Act.Apply(FastPath, listing, NO_TROUBLE)] &&
            IsListing(n.cache, listing)
    ensures |p.ns| == 3 && p.ns[1] == n.(vms := P.SetStatus(n.vms, v, name, status, t)) && p.ns[2] == m
    ensures m.cache == n.cache && m.vms == P.SetStatus(n.vms, v, name, status, t)
    ensures m.backup.closed == n.backup.closed
  {
    var l := n.(vms := P.SetStatus(n.vms, v, name, status, t));
    listing := ListingExists(n.cache);
    var es;
    es, m := ApplyHappens(env, l, FastPath, listing, NO_TROUBLE);
    var a, b := Place(v, name, status, t), Act.Apply(FastPath, listing, NO_TROUBLE);
    p := TwoStepPath(env, n, a, [], l, b, es, m);
    NoTroubleIsFlawless(env, l, b, m);
  }

  lemma TwoStepPath(env: Env, n: Node, a: Act, es: seq<Event>, l: Node, b: Act, fs: seq<Event>, m: Node)
    returns (p: Path)
    requires Step(env, n, a, es, l) && Step(env, l, b, fs, m)
    ensures Leads(env, n, p, m) && p == Path([n, l, m], [a, b], [es, fs])
  {
    var ns, acts, ess := [n, l, m], [a, b], [es, fs];
    forall i, j | 0 <= i < j < |ns| && j == i + 1 ensures Step(env, ns[i], acts[i], ess[i], ns[j]) {
      if i == 0 {
        assert ns[i] == n && acts[i] == a && ess[i] == es && ns[j] == l;
      } else {
        assert ns[i] == l && acts[i] == b && ess[i] == fs && ns[j] == m;
      }
    }
    p := Path(ns, acts, ess);
  }

  lemma NoTroubleIsFlawless(env: Env, n: Node, a: Act, m: Node)
    requires a.Apply? && a.trouble == NO_TROUBLE
    ensures Flawless(env, n, a, m)
  {
  }

  function OneMapping(v: int, x: Mapping): Cache {
    Cache(true, map[v := [x]], map[], map[])
  }

  lemma ListsIt(v: int, x: Mapping, listing: seq<Mapping>)
    requires v > 0 && x.vmid == v && IsListing(OneMapping(v, x), listing)
    ensures HasIP(OfVM(listing, v), x.external)
  {
    ListingOfVM(OneMapping(v, x), listing, v);
    assert OfVM(listing, v) == [x];
    assert x in [x];
  }

  /** A node that has just been primed with one mapping of v, which it announces if it has the VM. */
  function Primed(v: int, x: Mapping, vms: P.VMs, up: set<Addr>): Node {
    Node(vms, B.Fresh(map[]), OneMapping(v, x), Core(map[], "", false, Announced(up, true)),
         Kernel([], up), G.NO_FETCH, false)
  }

  lemma PrimedIsSound(env: Env, v: int, x: Mapping, vms: P.VMs, up: set<Addr>)
    requires x.vmid == v
    ensures Sound(env, Primed(v, x, vms, up), v, {x.external})
  {
  }

  function About(v: int, x: Mapping, s: Env, t: Env, phase: string, time: int): CloudEvent {
    CloudEvent("", "", "migrate", phase, s.self, t.self, v, x.name, "", 0, Some(time))
  }

  function When(listing: seq<Mapping>): Moment {
    Moment(0, 0, listing, listing, NO_TROUBLE, NO_TROUBLE)
  }

  lemma StartedHappens(s: Env, t: Env, n: Node, v: int, x: Mapping) returns (turn: Turn, m: Node)
    requires n.cache.ready
    ensures turn.side == Target && Moves(t, n, turn.mv, turn.p, m) && StartsHere(t.self, turn.mv, v, 1)
    ensures m.cache == n.cache && m.vms == P.SetStatus(n.vms, v, x.name, P.Staged, 1)
    ensures m.backup.closed == n.backup.closed
  {
    var listing, p;
    listing, p, m := CutOverHappens(t, n, v, x.name, P.Staged, 1);
    turn := Turn(Target, Handle(About(v, x, s, t, "started", 1), When(listing)), p);
  }

  lemma TakenHappens(s: Env, t: Env, n: Node, v: int, x: Mapping) returns (turn: Turn, m: Node)
    requires !SameNode(s.self, t.self) && !n.backup.closed
    requires v > 0 && x.vmid == v && n.cache == OneMapping(v, x) && Accepted(n, v, 2)
    ensures turn.side == Target && Moves(t, n, turn.mv, turn.p, m) && SyncsTo(t.self, turn.mv, v)
    ensures TimeOf(turn.mv.ev, turn.mv.w.now) == 2 && EndsServing(t, turn.p, v, x.external)
  {
    var listing, p;
    listing, p, m := CutOverHappens(t, n, v, x.name, P.Active, 2);
    ListsIt(v, x, listing);
    ServesThen(t, n, v, x, p, listing);
    TakenMove(s, t, n, v, x, p, m, listing);
    turn := Turn(Target, Handle(About(v, x, s, t, "synced", 2), When(listing)), p);
  }

  lemma TakenMove(s: Env, t: Env, n: Node, v: int, x: Mapping, p: Path, m: Node, listing: seq<Mapping>)
    requires Leads(t, n, p, m) && n.cache.ready && !SameNode(s.self, t.self)
    requires p.acts == [Place(v, x.name, P.Active, 2), Act.Apply(FastPath, listing, NO_TROUBLE)]
    ensures var mv := Handle(About(v, x, s, t, "synced", 2), When(listing));
            Moves(t, n, mv, p, m) && SyncsTo(t.self, mv, v)
  {
  }

  lemma ServesThen(t: Env, n: Node, v: int, x: Mapping, p: Path, listing: seq<Mapping>)
    requires EndsFlawless(t, p) && HasIP(OfVM(listing, v), x.external) && !n.backup.closed && Accepted(n, v, 2)
    requires p.acts == [Place(v, x.name, P.Active, 2), Act.Apply(FastPath, listing, NO_TROUBLE)] && |p.ns| == 3
    requires p.ns[1] == n.(vms := P.SetStatus(n.vms, v, x.name, P.Active, 2)) && p.ns[2].vms == p.ns[1].vms
    ensures EndsServing(t, p, v, x.external)
  {
  }

  lemma GoneHappens(s: Env, t: Env, n: Node, v: int, x: Mapping) returns (turn: Turn, m: Node)
    requires n.cache.ready && !SameNode(s.self, t.self)
    ensures turn.side == Source && Moves(s, n, turn.mv, turn.p, m) && SyncsFrom(s.self, turn.mv, v, 2)
    ensures EndsFlawless(s, turn.p)
  {
    var listing, p;
    listing, p, m := CutOverHappens(s, n, v, "", P.Absent, 2);
    turn := Turn(Source, Handle(About(v, x, s, t, "synced", 2), When(listing)), p);
  }

  /** The three turns of a migration, meeting every assumption of the migration result. */
  lemma ThreeTurns(s: Env, t: Env, v: int, x: Mapping) returns (cs: seq<Cluster>, ts: seq<Turn>)
    requires x.vmid == v && v > 0 && !SameNode(s.self, t.self)
    ensures |cs| == 4 && |ts| == 3 && Turns(s, t, cs, ts)
    ensures cs[0].source == Primed(v, x, map[v := P.VM(x.name, P.Active, 0, 0, P.ZERO_TIME)], {x.external})
    ensures cs[0].target == Primed(v, x, map[], {})
    ensures TargetScript(t, cs, ts, v, {x.external}, 0, 1, 1)
    ensures TakesOn(t, cs, ts, v, {x.external}, 1, 1) && KeepsUp(t, ts, v, x.external, 1)
    ensures SourceScript(s, cs, ts, v, {x.external}, 2, 2, 2)
  {
    var a := Primed(v, x, map[v := P.VM(x.name, P.Active, 0, 0, P.ZERO_TIME)], {x.external});
    var b := Primed(v, x, map[], {});
    var t0, b1 := StartedHappens(s, t, b, v, x);
    var t1, b2 := TakenHappens(s, t, b1, v, x);
    var t2, a3 := GoneHappens(s, t, a, v, x);
    cs := [Cluster(a, b), Cluster(a, b1), Cluster(a, b2), Cluster(a3, b2)];
    ts := [t0, t1, t2];
    TurnsAre(s, t, cs, ts);
    TargetHears(t, cs, ts, v, x);
    SourceHears(s, cs, ts, v, x);
  }

  lemma TurnsAre(s: Env, t: Env, cs: seq<Cluster>, ts: seq<Turn>)
    requires |cs| == 4 && |ts| == 3
    requires TurnOf(s, t, cs[0], ts[0], cs[1]) && TurnOf(s, t, cs[1], ts[1], cs[2]) && TurnOf(s, t, cs[2], ts[2], cs[3])
    ensures Turns(s, t, cs, ts)
  {
  }

  lemma TargetHears(t: Env, cs: seq<Cluster>, ts: seq<Turn>, v: int, x: Mapping)
    requires |cs| == 4 && |ts| == 3 && ts[0].side == Target && ts[1].side == Target && ts[2].side == Source
    requires StartsHere(t.self, ts[0].mv, v, 1) && cs[0].target == Primed(v, x, map[], {})
    requires cs[1].target.vms == P.SetStatus(map[], v, x.name, P.Staged, 1)
    requires SyncsTo(t.self, ts[1].mv, v) && TimeOf(ts[1].mv.ev, ts[1].mv.w.now) == 2
    requires EndsServing(t, ts[1].p, v, x.external)
    ensures TargetScript(t, cs, ts, v, {x.external}, 0, 1, 1)
    ensures TakesOn(t, cs, ts, v, {x.external}, 1, 1) && KeepsUp(t, ts, v, x.external, 1)
  {
  }

  lemma SourceHears(s: Env, cs: seq<Cluster>, ts: seq<Turn>, v: int, x: Mapping)
    requires |cs| == 4 && |ts| == 3 && ts[0].side == Target && ts[1].side == Target && ts[2].side == Source
    requires cs[2].source.vms == map[v := P.VM(x.name, P.Active, 0, 0, P.ZERO_TIME)]
    requires SyncsFrom(s.self, ts[2].mv, v, 2) && EndsFlawless(s, ts[2].p)
    ensures SourceScript(s, cs, ts, v, {x.external}, 2, 2, 2)
  {
  }

  /** A migration that moves the VM's address from the source to the target, through every assumption of the result. */
  lemma AMigrationHappens(s: Env, t: Env, v: int, x: Mapping) returns (cs: seq<Cluster>, ts: seq<Turn>)
    requires GoodText(s.text) && GoodText(t.text) && v > 0 && x.vmid == v && !SameNode(s.self, t.self)
    ensures |cs| == 4 && |ts| == 3 && Turns(s, t, cs, ts)
    ensures Quiet(t, cs[0].target, v, {x.external}, NEVER) && Sound(s, cs[0].source, v, {x.external})
    ensures TargetScript(t, cs, ts, v, {x.external}, 0, 1, 1)
    ensures TakesOn(t, cs, ts, v, {x.external}, 1, 1) && KeepsUp(t, ts, v, x.external, 1)
    ensures SourceScript(s, cs, ts, v, {x.external}, 2, 2, 2)
    ensures x.external in cs[0].source.kernel.lo && x.external !in cs[0].target.kernel.lo
    ensures x.external !in cs[3].source.kernel.lo && x.external in cs[3].target.kernel.lo
  {
    cs, ts := ThreeTurns(s, t, v, x);
    PrimedIsSound(s, v, x, cs[0].source.vms, {x.external});
    PrimedIsSound(t, v, x, map[], {});
    OnlyTargetAdvertises(s, t, cs, ts, v, {x.external}, x.external, 0, 1, 1, 1, 2, 2, 2, 3);
  }
}
