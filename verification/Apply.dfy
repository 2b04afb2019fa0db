/**
 One apply: which mappings each active VM gets, the ruleset and the announcements that
 follow, and the kernel operations in the order they happen.
 */
module Apply {
  import opened Options
  import opened Net
  import B = Backup
  import opened MappingCache

  datatype Source = FullFetch | BackupFallback | WebhookDelta | CachedMappings

  // ---- Per-VM resolution ----

  /** Whether an empty result for one VM can be believed. */
  predicate Authoritative(source: Source, all: seq<Mapping>, active: set<int>) {
    source != BackupFallback && (source == WebhookDelta || all != [] || active == {})
  }

  datatype Write = Leave | Save | Delete

  datatype Decision = Decision(mappings: seq<Mapping>, write: Write)

  function FoundIn(r: B.LoadResult): seq<Mapping> {
    if r.Found? then r.mappings else []
  }

  function Decide(source: Source, believed: bool, fetched: seq<Mapping>, loaded: B.LoadResult,
                  last: seq<Mapping>): Decision {
    if fetched != [] then Decision(fetched, Save)
    else if source == WebhookDelta then Decision([], Delete)
    else if FoundIn(loaded) != [] then Decision(FoundIn(loaded), if believed then Delete else Leave)
    else Decision(if believed then [] else last, Leave)
  }

  /** Everything the resolution of one apply depends on; reads of the backups in noRead fail. */
  datatype Job = Job(
    source: Source,
    all: seq<Mapping>,
    active: set<int>,
    backup: B.Store,
    last: map<int, seq<Mapping>>,
    noRead: set<int>)

  predicate Believed(j: Job) {
    Authoritative(j.source, j.all, j.active)
  }

  function DecisionFor(j: Job, v: int): Decision {
    Decide(j.source, Believed(j), OfVM(j.all, v), B.LoadResultOf(j.backup, v, j.noRead), At(j.last, v))
  }

  /** What is programmed for each VM that gets anything. */
  function Applied(j: Job): map<int, seq<Mapping>> {
    map v | v in j.active && DecisionFor(j, v).mappings != [] :: DecisionFor(j, v).mappings
  }

  predicate Consults(j: Job, v: int) {
    OfVM(j.all, v) == [] && j.source != WebhookDelta
  }

  function Reads(j: Job): set<int> {
    set v | v in j.active && Consults(j, v)
  }

  function WriteFor(d: Decision): Option<B.Bytes> {
    if d.write == Save then B.Payload(d.mappings) else None
  }

  function Writes(j: Job): map<int, Option<B.Bytes>> {
    map v | v in j.active && DecisionFor(j, v).write != Leave :: WriteFor(DecisionFor(j, v))
  }

  function BackupAfter(j: Job): B.Store {
    B.EnqueueAll(B.LoadAll(j.backup, Reads(j), j.noRead), Writes(j))
  }

  // ---- Rules and addresses of what is programmed ----

  ghost function Flatten(m: map<int, seq<Mapping>>): seq<Mapping>
    decreases m.Keys
  {
    if m == map[] then []
    else
      assert m.Keys != {};
      var v := Pick(m.Keys);
      m[v] + Flatten(m - {v})
  }

  /** The ruleset an unconditional nft apply would install. */
  ghost function Ruleset(m: map<int, seq<Mapping>>): seq<Pair> {
    RulesOf(Flatten(m))
  }

  function Externals(m: map<int, seq<Mapping>>): set<Addr> {
    set v, x | v in m && x in m[v] :: x.external
  }

  predicate HasRule(rules: seq<Pair>, ip: Addr) {
    exists i :: 0 <= i < |rules| && rules[i].external == ip
  }

  /** Which VM is taken first is of no consequence. */
  lemma {:induction false} FlattenAny(m: map<int, seq<Mapping>>, v: int)
    requires v in m
    ensures multiset(Flatten(m)) == multiset(m[v]) + multiset(Flatten(m - {v}))
    decreases m.Keys
  {
    var w := Pick(m.Keys);
    assert multiset(Flatten(m)) == multiset(m[w]) + multiset(Flatten(m - {w}));
    if w != v {
      FlattenAny(m - {w}, v);
      assert m - {w} - {v} == m - {v} - {w};
      FlattenAny(m - {v}, w);
    }
  }

  lemma FlattenAdd(m: map<int, seq<Mapping>>, v: int, ms: seq<Mapping>)
    requires v !in m
    ensures multiset(Flatten(m[v := ms])) == multiset(ms) + multiset(Flatten(m))
  {
    FlattenAny(m[v := ms], v);
    assert m[v := ms] - {v} == m;
  }

  lemma {:induction false} FlattenMembers(m: map<int, seq<Mapping>>, x: Mapping)
    ensures x in Flatten(m) <==> exists v :: v in m && x in m[v]
    decreases m.Keys
  {
    if m != map[] {
      assert m.Keys != {};
      var w := Pick(m.Keys);
      FlattenMembers(m - {w}, x);
      assert x in Flatten(m) <==> x in m[w] || x in Flatten(m - {w});
      assert forall v | v in m && v != w :: v in m - {w};
    }
  }

  lemma RulesOfHas(ms: seq<Mapping>, ip: Addr)
    ensures HasRule(RulesOf(ms), ip) <==> exists x :: x in ms && x.external == ip
  {
    var ps, rs := PairsOf(ms), RulesOf(ms);
    assert multiset(rs) == multiset(ps);
    if HasRule(rs, ip) {
      var i :| 0 <= i < |rs| && rs[i].external == ip;
      assert rs[i] in multiset(ps);
      var k :| 0 <= k < |ps| && ps[k] == rs[i];
      assert ms[k] in ms;
    }
    if x :| x in ms && x.external == ip {
      var k :| 0 <= k < |ms| && ms[k] == x;
      assert ps[k] in multiset(rs);
      var i :| 0 <= i < |rs| && rs[i] == ps[k];
    }
  }

  /** The ruleset has a rule for exactly the addresses that are to be announced. */
  lemma RulesetHas(m: map<int, seq<Mapping>>, ip: Addr)
    ensures HasRule(Ruleset(m), ip) <==> ip in Externals(m)
  {
    RulesOfHas(Flatten(m), ip);
    if ip in Externals(m) {
      var v, x :| v in m && x in m[v] && x.external == ip;
      FlattenMembers(m, x);
    }
    if x :| x in Flatten(m) && x.external == ip {
      FlattenMembers(m, x);
    }
  }

  /** A rule translates exactly what some programmed mapping translates, to the same address. */
  lemma RulesetTranslates(m: map<int, seq<Mapping>>, p: Pair)
    ensures p in Ruleset(m) <==>
            exists v, x :: v in m && x in m[v] && x.external == p.external && x.internal == p.internal
  {
    RulesUsed(Flatten(m), p);
    if v, x :| v in m && x in m[v] && x.external == p.external && x.internal == p.internal {
      FlattenMembers(m, x);
    }
    if x :| x in Flatten(m) && x.external == p.external && x.internal == p.internal {
      FlattenMembers(m, x);
    }
  }

  lemma {:induction false} ConcatIsFlatten(m: map<int, seq<Mapping>>, ks: seq<int>)
    requires Enumerates(ks, m.Keys)
    ensures multiset(Concat(m, ks)) == multiset(Flatten(m))
    decreases |ks|
  {
    if ks != [] {
      var front, v := ks[..|ks| - 1], ks[|ks| - 1];
      LastOfKeys(m, ks);
      FlattenAny(m, v);
      ConcatIsFlatten(m - {v}, front);
      ConcatWithout(m, front, v);
    } else {
      assert m.Keys == {};
    }
  }

  lemma LastOfKeys(m: map<int, seq<Mapping>>, ks: seq<int>)
    requires Enumerates(ks, m.Keys) && ks != []
    ensures var front, v := ks[..|ks| - 1], ks[|ks| - 1];
            v in m && v !in front && Enumerates(front, (m - {v}).Keys)
  {
    var front, v := ks[..|ks| - 1], ks[|ks| - 1];
    assert ks == front + [v] && v in ks;
    forall k ensures k in front <==> k in (m - {v}).Keys {
      assert k in ks <==> k in front || k == v;
    }
  }

  lemma {:induction false} ConcatWithout(m: map<int, seq<Mapping>>, ks: seq<int>, v: int)
    requires v !in ks
    ensures Concat(m - {v}, ks) == Concat(m, ks)
  {
    if ks != [] {
      ConcatWithout(m, ks[..|ks| - 1], v);
    }
  }

  /** Counting all programmed mappings, in whatever order, each rule is there as often as it is asked for. */
  lemma RulesetCounts(m: map<int, seq<Mapping>>, ks: seq<int>, p: Pair)
    requires Enumerates(ks, m.Keys)
    ensures multiset(Ruleset(m))[p] == Uses(Concat(m, ks), p.external, p.internal)
  {
    ConcatIsFlatten(m, ks);
    PermutedPairs(Concat(m, ks), Flatten(m));
    RulesUsed(Flatten(m), p);
    PairsUsed(Concat(m, ks), p);
    PairsUsed(Flatten(m), p);
  }
}
