/**
 The mapping cache and the webhook deltas that update it without a NetBox fetch.
 Address parsing is a parameter: a partial function from text to addresses.
 */
module MappingCache {
  import opened Options
  import opened Text
  import opened Net

  datatype Cache = Cache(
    ready: bool,
    byVMID: map<int, seq<Mapping>>,
    pending: map<string, seq<Mapping>>,
    idByName: map<string, int>)

  datatype Delta = Delta(
    event: string, model: string, name: string, vmid: int, hasVMID: bool, internal: string, outside: seq<string>)

  type Parser = string -> Option<Addr>

  function Normal(s: string): string {
    Lower(Trim(s))
  }

  predicate IsVM(d: Delta) { Normal(d.model) == "virtualmachine" }

  predicate IsIP(d: Delta) { Normal(d.model) == "ipaddress" }

  predicate IsDeleted(d: Delta) { Normal(d.event) == "deleted" }

  function IdOf(c: Cache, name: string): int {
    if name in c.idByName then c.idByName[name] else 0
  }

  /** The VMID a delta speaks about, looked up under the given name when it carries none. */
  function Target(c: Cache, d: Delta, name: string): int {
    if d.hasVMID then d.vmid else if name != "" then IdOf(c, name) else 0
  }

  function At<K>(m: map<K, seq<Mapping>>, k: K): seq<Mapping> {
    if k in m then m[k] else []
  }

  function Retarget(ms: seq<Mapping>, v: int): (r: seq<Mapping>)
    ensures |r| == |ms| && forall i | 0 <= i < |ms| :: r[i] == ms[i].(vmid := v)
  {
    seq(|ms|, i requires 0 <= i < |ms| => ms[i].(vmid := v))
  }

  /** One mapping per outside address that parses. */
  function Entries(parse: Parser, outside: seq<string>, internal: Addr, v: int, name: string): seq<Mapping> {
    if outside == [] then []
    else
      var rest := Entries(parse, outside[1..], internal, v, name);
      var ext := parse(outside[0]);
      if ext.None? then rest else [Mapping(ext.value, internal, v, name)] + rest
  }

  predicate Parses(parse: Parser, texts: seq<string>, a: Addr) {
    exists i :: 0 <= i < |texts| && parse(texts[i]) == Some(a)
  }

  /** The entries lead from each outside address that parses to the internal address, and there are no others. */
  lemma {:induction false} EntriesHave(parse: Parser, outside: seq<string>, internal: Addr, v: int, name: string,
                                       x: Mapping)
    ensures x in Entries(parse, outside, internal, v, name) <==>
            x.internal == internal && x.vmid == v && x.name == name && Parses(parse, outside, x.external)
  {
    if outside != [] {
      EntriesHave(parse, outside[1..], internal, v, name, x);
      if i :| 0 <= i < |outside| && parse(outside[i]) == Some(x.external) {
        assert i > 0 ==> outside[1..][i - 1] == outside[i];
      }
      if i :| 0 <= i < |outside[1..]| && parse(outside[1..][i]) == Some(x.external) {
        assert outside[1..][i] == outside[i + 1];
      }
    }
  }

  // ---- Updates ----

  function Rebuild(ms: seq<Mapping>): Cache {
    if ms == [] then Cache(true, map[], map[], map[])
    else
      var c := Rebuild(ms[..|ms| - 1]);
      var m := ms[|ms| - 1];
      Cache(true, c.byVMID[m.vmid := At(c.byVMID, m.vmid) + [m]], map[],
            if m.name != "" then c.idByName[m.name := m.vmid] else c.idByName)
  }

  /** A delta that names a VM and its VMID resolves what was waiting under that name. */
  function Learn(c: Cache, d: Delta): Cache {
    if !d.hasVMID || d.name == "" then c
    else c.(idByName := c.idByName[d.name := d.vmid],
            byVMID := if d.name in c.pending then c.byVMID[d.vmid := Retarget(c.pending[d.name], d.vmid)] else c.byVMID,
            pending := c.pending - {d.name})
  }

  function NamesOf(c: Cache, v: int): set<string> {
    set n | n in c.idByName && c.idByName[n] == v
  }

  function ForgetVM(c: Cache, d: Delta): Cache {
    var v := Target(c, d, d.name);
    var gone := (if v > 0 then NamesOf(c, v) else {}) + (if d.name != "" then {d.name} else {});
    c.(byVMID := if v > 0 then c.byVMID - {v} else c.byVMID,
       idByName := if v > 0 then c.idByName - NamesOf(c, v) else c.idByName,
       pending := c.pending - gone)
  }

  function ForgetIP(c: Cache, v: int, name: string): Cache {
    c.(byVMID := if v > 0 then c.byVMID - {v} else c.byVMID,
       pending := if name != "" then c.pending - {name} else c.pending)
  }

  function StoreIP(c: Cache, v: int, name: string, entries: seq<Mapping>): Cache {
    c.(byVMID := if v > 0 then c.byVMID[v := entries] else c.byVMID,
       pending := if v > 0 then c.pending else c.pending[name := entries],
       idByName := if v > 0 && name != "" then c.idByName[name := v] else c.idByName)
  }

  /** What an ipaddress delta asks for, before anyone knows which VMID it is for. */
  datatype Change = Keep | Drop | Put(entries: seq<Mapping>)

  function ChangeOf(parse: Parser, d: Delta, v: int, name: string): Change {
    if IsDeleted(d) || Trim(d.internal) == "" || d.outside == [] then Drop
    else
      var internal := parse(d.internal);
      if internal.None? then Keep
      else
        var entries := Entries(parse, d.outside, internal.value, v, name);
        if entries == [] then Drop else Put(entries)
  }

  function UpdateIP(parse: Parser, c: Cache, d: Delta): Cache {
    var name := Trim(d.name);
    var v := Target(c, d, name);
    if v <= 0 && name == "" then c
    else
      match ChangeOf(parse, d, v, name)
      case Keep => c
      case Drop => ForgetIP(c, v, name)
      case Put(entries) => StoreIP(c, v, name, entries)
  }

  function Update(parse: Parser, c: Cache, d: Delta): Cache {
    var l := Learn(c, d);
    if IsVM(d) then (if IsDeleted(d) then ForgetVM(l, d) else l)
    else if IsIP(d) then UpdateIP(parse, l, d)
    else l
  }

  /** The empty, ready cache a first delta starts from. */
  function Readied(c: Cache): Cache {
    if c.ready then c else Cache(true, map[], map[], map[])
  }

  // ---- Listings ----

  function Concat<K(!new)>(m: map<K, seq<Mapping>>, ks: seq<K>): seq<Mapping> {
    if ks == [] then [] else Concat(m, ks[..|ks| - 1]) + At(m, ks[|ks| - 1])
  }

  /** cachedMappings walks two maps, so its result is any arrangement of their entries. */
  ghost predicate ListedAs(c: Cache, ks: seq<int>, ns: seq<string>, all: seq<Mapping>) {
    && Enumerates(ks, c.byVMID.Keys) && Enumerates(ns, c.pending.Keys)
    && all == Concat(c.byVMID, ks) + Concat(c.pending, ns)
  }

  ghost predicate IsListing(c: Cache, all: seq<Mapping>) {
    exists ks, ns :: ListedAs(c, ks, ns, all)
  }

  /** The mappings of one VM, in the order they are listed. */
  function OfVM(all: seq<Mapping>, v: int): seq<Mapping> {
    if all == [] then []
    else
      var m := all[|all| - 1];
      OfVM(all[..|all| - 1], v) + (if m.vmid == v then [m] else [])
  }

  lemma OfVMAppend(a: seq<Mapping>, m: Mapping, v: int)
    ensures OfVM(a + [m], v) == OfVM(a, v) + (if m.vmid == v then [m] else [])
  {
    assert (a + [m])[..|a|] == a;
  }

  lemma {:induction false} OfVMConcat(a: seq<Mapping>, b: seq<Mapping>, v: int)
    ensures OfVM(a + b, v) == OfVM(a, v) + OfVM(b, v)
  {
    if b == [] {
      assert a + b == a;
    } else {
      var front, m := b[..|b| - 1], b[|b| - 1];
      OfVMConcat(a, front, v);
      var x := if m.vmid == v then [m] else [];
      OfVMAppend(a + front, m, v);
      assert a + b == (a + front) + [m];
      assert OfVM(b, v) == OfVM(front, v) + x;
      assert (OfVM(a, v) + OfVM(front, v)) + x == OfVM(a, v) + (OfVM(front, v) + x);
    }
  }

  lemma {:induction false} OfVMAll(ms: seq<Mapping>, v: int)
    ensures (forall m | m in ms :: m.vmid == v) ==> OfVM(ms, v) == ms
    ensures (forall m | m in ms :: m.vmid != v) ==> OfVM(ms, v) == []
    ensures forall m :: m in OfVM(ms, v) <==> m in ms && m.vmid == v
  {
    if ms != [] {
      OfVMAll(ms[..|ms| - 1], v);
      assert ms == ms[..|ms| - 1] + [ms[|ms| - 1]];
    }
  }

  /** Entries filed under a VMID carry it; entries filed under a name carry none. */
  predicate Filed(c: Cache) {
    && (forall v, m | v in c.byVMID && m in c.byVMID[v] :: m.vmid == v)
    && (forall n, m | n in c.pending && m in c.pending[n] :: m.vmid <= 0)
  }

  lemma {:induction false} ConcatOfVM(m: map<int, seq<Mapping>>, ks: seq<int>, v: int)
    requires forall k, x | k in m && x in m[k] :: x.vmid == k
    requires forall i, j | 0 <= i < j < |ks| :: ks[i] != ks[j]
    ensures OfVM(Concat(m, ks), v) == if v in ks then At(m, v) else []
  {
    if ks != [] {
      var front, last := ks[..|ks| - 1], ks[|ks| - 1];
      ConcatOfVM(m, front, v);
      OfVMConcat(Concat(m, front), At(m, last), v);
      AtOfVM(m, last, v);
      LastIsNew(ks, v);
    }
  }

  lemma LastIsNew(ks: seq<int>, v: int)
    requires ks != [] && forall i, j | 0 <= i < j < |ks| :: ks[i] != ks[j]
    ensures var front, last := ks[..|ks| - 1], ks[|ks| - 1];
            last !in front && (v in ks <==> v in front || v == last)
  {
    assert ks == ks[..|ks| - 1] + [ks[|ks| - 1]];
  }

  lemma AtOfVM(m: map<int, seq<Mapping>>, k: int, v: int)
    requires forall k, x | k in m && x in m[k] :: x.vmid == k
    ensures OfVM(At(m, k), v) == if k == v then At(m, v) else []
  {
    OfVMAll(At(m, k), v);
  }

  lemma {:induction false} ConcatOfNames(m: map<string, seq<Mapping>>, ks: seq<string>, v: int)
    requires v > 0
    requires forall k, x | k in m && x in m[k] :: x.vmid <= 0
    ensures OfVM(Concat(m, ks), v) == []
  {
    if ks != [] {
      var n := |ks| - 1;
      ConcatOfNames(m, ks[..n], v);
      OfVMConcat(Concat(m, ks[..n]), At(m, ks[n]), v);
      OfVMAll(At(m, ks[n]), v);
    }
  }

  /** However the cache is listed, a VM gets back exactly the entries filed under it. */
  lemma ListingOfVM(c: Cache, all: seq<Mapping>, v: int)
    requires Filed(c) && IsListing(c, all) && v > 0
    ensures OfVM(all, v) == At(c.byVMID, v)
  {
    var ks, ns :| ListedAs(c, ks, ns, all);
    OfVMConcat(Concat(c.byVMID, ks), Concat(c.pending, ns), v);
    ConcatOfVM(c.byVMID, ks, v);
    ConcatOfNames(c.pending, ns, v);
  }

  lemma {:induction false} ConcatHas<K(!new)>(m: map<K, seq<Mapping>>, ks: seq<K>, k: K, x: Mapping)
    requires k in ks && x in At(m, k)
    ensures x in Concat(m, ks)
  {
    var n := |ks| - 1;
    assert ks == ks[..n] + [ks[n]];
    if k != ks[n] {
      ConcatHas(m, ks[..n], k, x);
    }
  }

  lemma {:induction false} ConcatFrom<K(!new)>(m: map<K, seq<Mapping>>, ks: seq<K>, x: Mapping) returns (k: K)
    requires x in Concat(m, ks)
    ensures k in ks && x in At(m, k)
  {
    var n := |ks| - 1;
    if x in At(m, ks[n]) {
      k := ks[n];
    } else {
      k := ConcatFrom(m, ks[..n], x);
    }
  }

  ghost predicate Cached(c: Cache, x: Mapping) {
    (exists v :: v in c.byVMID && x in c.byVMID[v]) || (exists n :: n in c.pending && x in c.pending[n])
  }

  /** A listing holds exactly what is cached. */
  lemma ListingMembers(c: Cache, all: seq<Mapping>, x: Mapping)
    requires IsListing(c, all)
    ensures x in all <==> Cached(c, x)
  {
    var ks, ns :| ListedAs(c, ks, ns, all);
    var filed, waiting := Concat(c.byVMID, ks), Concat(c.pending, ns);
    assert x in all <==> x in filed || x in waiting;
    if x in filed {
      var v := ConcatFrom(c.byVMID, ks, x);
      assert v in c.byVMID && x in c.byVMID[v];
    }
    if x in waiting {
      var n := ConcatFrom(c.pending, ns, x);
      assert n in c.pending && x in c.pending[n];
    }
    if v :| v in c.byVMID && x in c.byVMID[v] {
      ConcatHas(c.byVMID, ks, v, x);
    }
    if n :| n in c.pending && x in c.pending[n] {
      ConcatHas(c.pending, ns, n, x);
    }
  }

  // ---- What every update keeps ----

  lemma {:induction false} EntriesCarry(parse: Parser, outside: seq<string>, internal: Addr, v: int, name: string)
    ensures forall m | m in Entries(parse, outside, internal, v, name) ::
              m.vmid == v && m.name == name && m.internal == internal
  {
    if outside != [] {
      EntriesCarry(parse, outside[1..], internal, v, name);
    }
  }

  lemma {:induction false} RebuildFiled(ms: seq<Mapping>)
    ensures Filed(Rebuild(ms)) && Rebuild(ms).pending == map[] && Rebuild(ms).ready
    ensures forall v :: At(Rebuild(ms).byVMID, v) == OfVM(ms, v)
  {
    if ms != [] {
      RebuildFiled(ms[..|ms| - 1]);
      var c, d := Rebuild(ms[..|ms| - 1]), Rebuild(ms);
      var m := ms[|ms| - 1];
      forall v, x | v in d.byVMID && x in d.byVMID[v] ensures x.vmid == v {
        assert v != m.vmid ==> v in c.byVMID && d.byVMID[v] == c.byVMID[v];
        assert v == m.vmid ==> x in At(c.byVMID, v) || x == m;
      }
    }
  }

  /** The last mapping of the list that carries the name n. */
  ghost predicate LastNamed(ms: seq<Mapping>, n: string, i: int) {
    0 <= i < |ms| && ms[i].name == n && forall j | i < j < |ms| :: ms[j].name != n
  }

  /** A rebuilt cache knows the names in the list and no others, each with the VMID it comes with last. */
  lemma {:induction false} RebuildNames(ms: seq<Mapping>, n: string)
    ensures n in Rebuild(ms).idByName <==> n != "" && exists m :: m in ms && m.name == n
    ensures n != "" ==> forall i | LastNamed(ms, n, i) :: IdOf(Rebuild(ms), n) == ms[i].vmid
  {
    if ms != [] {
      var front, m := ms[..|ms| - 1], ms[|ms| - 1];
      RebuildNames(front, n);
      assert ms == front + [m];
      forall i | LastNamed(ms, n, i) && n != "" ensures IdOf(Rebuild(ms), n) == ms[i].vmid {
        if i < |front| {
          assert m.name != n;
          assert forall j | i < j < |front| :: front[j] == ms[j];
          assert LastNamed(front, n, i);
        }
      }
    }
  }

  lemma LearnFiled(c: Cache, d: Delta)
    requires Filed(c)
    ensures Filed(Learn(c, d))
  {
  }

  lemma UpdateFiled(parse: Parser, c: Cache, d: Delta)
    requires Filed(c)
    ensures Filed(Update(parse, c, d))
  {
    LearnFiled(c, d);
    var l := Learn(c, d);
    var name := Trim(d.name);
    var v := Target(l, d, name);
    var change := ChangeOf(parse, d, v, name);
    if IsIP(d) && change.Put? {
      var internal := parse(d.internal);
      EntriesCarry(parse, d.outside, internal.value, v, name);
    }
  }

  /** A name that still waits for its VM has no positive VMID on record. */
  predicate Unresolved(c: Cache) {
    forall n | n in c.pending :: IdOf(c, n) <= 0
  }

  /** The one way to break it: an address delta that carries a VMID under a name with stray white space. */
  predicate StrayName(parse: Parser, c: Cache, d: Delta) {
    var name := Trim(d.name);
    && d.hasVMID && IsIP(d) && name !in [d.name, ""]
    && (if d.vmid > 0 then name in c.pending else IdOf(c, name) > 0)
    && ChangeOf(parse, d, d.vmid, name).Put?
  }

  /** No name is ever both waiting and resolved, exactly as long as no stray name comes by. */
  lemma UpdateUnresolved(parse: Parser, c: Cache, d: Delta)
    requires Unresolved(c)
    ensures Unresolved(Update(parse, c, d)) <==> !StrayName(parse, c, d)
  {
    var l := Learn(c, d);
    assert Unresolved(l);
    if StrayName(parse, c, d) {
      var u := Update(parse, c, d);
      assert Trim(d.name) in u.pending && IdOf(u, Trim(d.name)) > 0;
    }
  }

  // ---- Late resolution ----

  function UpdateAll(parse: Parser, c: Cache, ds: seq<Delta>): Cache {
    if ds == [] then c else Update(parse, UpdateAll(parse, c, ds[..|ds| - 1]), ds[|ds| - 1])
  }

  lemma {:induction false} UpdateAllAppend(parse: Parser, c: Cache, ds: seq<Delta>, es: seq<Delta>)
    ensures UpdateAll(parse, c, ds + es) == UpdateAll(parse, UpdateAll(parse, c, ds), es)
  {
    if es == [] {
      assert ds + es == ds;
    } else {
      var n := |es| - 1;
      UpdateAllAppend(parse, c, ds, es[..n]);
      assert (ds + es)[..|ds + es| - 1] == ds + es[..n];
    }
  }

  /** An address delta for the VM named n that does not know its VMID. */
  predicate Anonymous(d: Delta, n: string) {
    IsIP(d) && !IsVM(d) && !d.hasVMID && Trim(d.name) == n
  }

  /** The VM delta that ties the name n to the VMID v. */
  predicate Announces(d: Delta, n: string, v: int) {
    IsVM(d) && !IsDeleted(d) && d.hasVMID && d.vmid == v && d.name == n
  }

  function After(start: Option<seq<Mapping>>, change: Change): Option<seq<Mapping>> {
    match change
    case Keep => start
    case Drop => None
    case Put(entries) => Some(entries)
  }

  /** The entries a stream of address deltas leaves behind, starting from those already there. */
  function NetEffect(parse: Parser, start: Option<seq<Mapping>>, ds: seq<Delta>, v: int,
                     n: string): Option<seq<Mapping>> {
    if ds == [] then start
    else After(NetEffect(parse, start, ds[..|ds| - 1], v, n), ChangeOf(parse, ds[|ds| - 1], v, n))
  }

  function PutAt<K>(m: map<K, seq<Mapping>>, k: K, ms: Option<seq<Mapping>>): map<K, seq<Mapping>> {
    if ms.Some? then m[k := ms.value] else m - {k}
  }

  predicate Stream(ds: seq<Delta>, n: string) {
    forall i | 0 <= i < |ds| :: Anonymous(ds[i], n)
  }

  lemma {:induction false} EntriesRetarget(parse: Parser, outside: seq<string>, internal: Addr, v: int, name: string)
    ensures Retarget(Entries(parse, outside, internal, 0, name), v) == Entries(parse, outside, internal, v, name)
  {
    if outside != [] {
      EntriesRetarget(parse, outside[1..], internal, v, name);
    }
  }

  lemma {:induction false} NetRetarget(parse: Parser, ds: seq<Delta>, v: int, n: string)
    ensures var zero := NetEffect(parse, None, ds, 0, n);
            NetEffect(parse, None, ds, v, n) == if zero.Some? then Some(Retarget(zero.value, v)) else None
  {
    if ds != [] {
      var d := ds[|ds| - 1];
      var internal := parse(d.internal);
      NetRetarget(parse, ds[..|ds| - 1], v, n);
      if internal.Some? {
        EntriesRetarget(parse, d.outside, internal.value, v, n);
      }
    }
  }

  lemma {:induction false} NetAppend(parse: Parser, start: Option<seq<Mapping>>, ds: seq<Delta>, es: seq<Delta>,
                                     v: int, n: string)
    ensures NetEffect(parse, start, ds + es, v, n) == NetEffect(parse, NetEffect(parse, start, ds, v, n), es, v, n)
  {
    if es == [] {
      assert ds + es == ds;
    } else {
      NetAppend(parse, start, ds, es[..|es| - 1], v, n);
      assert (ds + es)[..|ds + es| - 1] == ds + es[..|es| - 1];
    }
  }

  lemma PutTwice<K>(m: map<K, seq<Mapping>>, k: K, a: Option<seq<Mapping>>, b: Option<seq<Mapping>>)
    ensures PutAt(PutAt(m, k, a), k, b) == PutAt(m, k, b)
    ensures Lookup(PutAt(m, k, a), k) == a
    ensures PutAt(m, k, Lookup(m, k)) == m
  {
  }

  lemma WaitingStep(parse: Parser, c: Cache, d: Delta, n: string)
    requires Anonymous(d, n) && n != "" && n !in c.idByName
    ensures Update(parse, c, d) ==
            c.(pending := PutAt(c.pending, n, After(Lookup(c.pending, n), ChangeOf(parse, d, 0, n))))
  {
    PutTwice(c.pending, n, None, None);
  }

  /** Until its VM is announced, a name collects its entries under the name. */
  lemma {:induction false} Waiting(parse: Parser, c: Cache, ds: seq<Delta>, n: string)
    requires Stream(ds, n) && n != "" && n !in c.idByName
    ensures UpdateAll(parse, c, ds) ==
            c.(pending := PutAt(c.pending, n, NetEffect(parse, Lookup(c.pending, n), ds, 0, n)))
  {
    if ds == [] {
      PutTwice(c.pending, n, None, None);
    } else {
      var so := NetEffect(parse, Lookup(c.pending, n), ds[..|ds| - 1], 0, n);
      Waiting(parse, c, ds[..|ds| - 1], n);
      WaitingStep(parse, UpdateAll(parse, c, ds[..|ds| - 1]), ds[|ds| - 1], n);
      PutTwice(c.pending, n, so, After(so, ChangeOf(parse, ds[|ds| - 1], 0, n)));
    }
  }

  lemma ResolvedStep(parse: Parser, c: Cache, d: Delta, n: string, v: int)
    requires Anonymous(d, n) && n != "" && v > 0 && n !in c.pending && IdOf(c, n) == v
    ensures Update(parse, c, d) ==
            c.(byVMID := PutAt(c.byVMID, v, After(Lookup(c.byVMID, v), ChangeOf(parse, d, v, n))))
  {
    PutTwice(c.byVMID, v, None, None);
    assert c.idByName[n := v] == c.idByName && c.pending - {n} == c.pending;
  }

  /** Once it is, the same deltas go straight to the VMID. */
  lemma {:induction false} Resolved(parse: Parser, c: Cache, ds: seq<Delta>, n: string, v: int)
    requires Stream(ds, n) && n != "" && v > 0 && n !in c.pending && IdOf(c, n) == v
    ensures UpdateAll(parse, c, ds) ==
            c.(byVMID := PutAt(c.byVMID, v, NetEffect(parse, Lookup(c.byVMID, v), ds, v, n)))
  {
    if ds == [] {
      PutTwice(c.byVMID, v, None, None);
    } else {
      var so := NetEffect(parse, Lookup(c.byVMID, v), ds[..|ds| - 1], v, n);
      Resolved(parse, c, ds[..|ds| - 1], n, v);
      ResolvedStep(parse, UpdateAll(parse, c, ds[..|ds| - 1]), ds[|ds| - 1], n, v);
      PutTwice(c.byVMID, v, so, After(so, ChangeOf(parse, ds[|ds| - 1], v, n)));
    }
  }

  lemma Announced(parse: Parser, c: Cache, e: Delta, n: string, v: int, waiting: Option<seq<Mapping>>)
    requires Announces(e, n, v) && n != "" && n !in c.pending && v !in c.byVMID
    ensures Update(parse, c.(pending := PutAt(c.pending, n, waiting)), e) ==
            c.(idByName := c.idByName[n := v],
               byVMID := PutAt(c.byVMID, v, if waiting.Some? then Some(Retarget(waiting.value, v)) else None))
  {
    var u := Update(parse, c.(pending := PutAt(c.pending, n, waiting)), e);
    assert u.pending == c.pending;
    assert waiting.None? ==> u.byVMID == c.byVMID - {v};
  }

  /** Whenever the VMID of a fresh name becomes known, the cache ends up the same. */
  lemma LateResolution(parse: Parser, c: Cache, ds: seq<Delta>, i: nat, e: Delta, n: string, v: int)
    requires Stream(ds, n) && i <= |ds| && Announces(e, n, v)
    requires n != "" && v > 0
    requires n !in c.idByName && n !in c.pending && v !in c.byVMID
    ensures UpdateAll(parse, c, ds[..i] + [e] + ds[i..]) ==
            c.(idByName := c.idByName[n := v], byVMID := PutAt(c.byVMID, v, NetEffect(parse, None, ds, v, n)))
  {
    var front, back := ds[..i], ds[i..];
    UpdateAllAppend(parse, c, front + [e], back);
    assert ds == front + back;
    ResolvedLate(parse, c, front, back, e, n, v);
  }

  lemma ResolvedLate(parse: Parser, c: Cache, front: seq<Delta>, back: seq<Delta>, e: Delta, n: string, v: int)
    requires Stream(front, n) && Stream(back, n) && Announces(e, n, v) && n != "" && v > 0
    requires n !in c.idByName && n !in c.pending && v !in c.byVMID
    ensures UpdateAll(parse, UpdateAll(parse, c, front + [e]), back) ==
            c.(idByName := c.idByName[n := v], byVMID := PutAt(c.byVMID, v, NetEffect(parse, None, front + back, v, n)))
  {
    var known := UntilKnown(parse, c, front, e, n, v);
    Resolved(parse, known, back, n, v);
    NetAppend(parse, None, front, back, v, n);
    var so := NetEffect(parse, None, front, v, n);
    PutTwice(c.byVMID, v, so, NetEffect(parse, so, back, v, n));
  }

  lemma UntilKnown(parse: Parser, c: Cache, ds: seq<Delta>, e: Delta, n: string, v: int) returns (known: Cache)
    requires Stream(ds, n) && Announces(e, n, v) && n != ""
    requires n !in c.idByName && n !in c.pending && v !in c.byVMID
    ensures known == UpdateAll(parse, c, ds + [e])
    ensures known == c.(idByName := c.idByName[n := v], byVMID := PutAt(c.byVMID, v, NetEffect(parse, None, ds, v, n)))
  {
    Waiting(parse, c, ds, n);
    Announced(parse, c, e, n, v, NetEffect(parse, None, ds, 0, n));
    NetRetarget(parse, ds, v, n);
    assert (ds + [e])[..|ds|] == ds;
    known := UpdateAll(parse, c, ds + [e]);
  }
}
