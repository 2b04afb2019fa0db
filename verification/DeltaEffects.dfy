/**
 What a webhook delta does to the cache, the records and the backups of a node, by VM, by
 name and by mapping.
 */
module DeltaEffects {
  import opened Options
  import opened Text
  import opened Net
  import B = Backup
  import P = Placement
  import opened MappingCache
  import opened Kernels
  import opened Apply
  import opened ApplySteps
  import opened Nodes
  import opened RunSafety
  import opened Retention
  import opened EventOutcomes

  predicate About(d: Delta, model: string) {
    Lower(Trim(d.model)) == model
  }

  predicate Deletes(d: Delta) {
    Lower(Trim(d.event)) == "deleted"
  }

  /** The VMID a delta is about: its own, or the one on record for the name. */
  predicate IsFor(c: Cache, d: Delta, name: string, v: int) {
    if d.hasVMID then v == d.vmid
    else v == if name != "" && name in c.idByName then c.idByName[name] else 0
  }

  // ---- VM deltas and the cache ----

  /** n is the name of the delta or, if that is about a VM with a VMID, another name of it. */
  predicate IsNameOf(c: Cache, d: Delta, v: int, n: string) {
    n == d.name || (v > 0 && n in c.idByName && c.idByName[n] == v)
  }

  /**
   The deletion of a VM removes its mappings, every name that led to it and whatever waited
   under one of them; entries of other VMs and under other names stay.
   */
  lemma DeletedVMIsForgotten(parse: Parser, c: Cache, d: Delta, v: int)
    requires About(d, "virtualmachine") && Deletes(d) && IsFor(c, d, d.name, v)
    ensures var m := Update(parse, c, d);
            && (v > 0 ==> v !in m.byVMID && forall n | n in m.idByName :: m.idByName[n] != v)
            && (forall n | n in m.pending :: n != "" ==> !IsNameOf(c, d, v, n))
    ensures var m := Update(parse, c, d);
            && m.ready == c.ready
            && (forall u | u != v :: Lookup(m.byVMID, u) == Lookup(c.byVMID, u))
            && (forall n | !IsNameOf(c, d, v, n) ::
                  Lookup(m.pending, n) == Lookup(c.pending, n) && Lookup(m.idByName, n) == Lookup(c.idByName, n))
  {
  }

  /** Once more for the mappings waiting under the name: they are the VM's from now on, otherwise unchanged. */
  predicate TakenOver(waiting: seq<Mapping>, ms: seq<Mapping>, v: int) {
    && |ms| == |waiting|
    && forall i | 0 <= i < |ms| ::
         ms[i].external == waiting[i].external && ms[i].internal == waiting[i].internal &&
         ms[i].name == waiting[i].name && ms[i].vmid == v
  }

  /** A VM that comes with its VMID takes over what waited under its name; nothing else changes. */
  lemma NamedVMTakesOver(parse: Parser, c: Cache, d: Delta)
    requires About(d, "virtualmachine") && !Deletes(d) && d.hasVMID && d.name != ""
    ensures var m := Update(parse, c, d);
            && m.ready == c.ready && m.idByName == c.idByName[d.name := d.vmid]
            && m.pending == c.pending - {d.name}
            && (forall u | u != d.vmid :: Lookup(m.byVMID, u) == Lookup(c.byVMID, u))
            && (if d.name in c.pending then d.vmid in m.byVMID && TakenOver(c.pending[d.name], m.byVMID[d.vmid], d.vmid)
                else m.byVMID == c.byVMID)
  {
    var m := Update(parse, c, d);
    if d.name !in c.pending {
      assert m.byVMID == c.byVMID;
    }
  }

  /** One that does not tells the cache nothing, and neither does a delta about something else. */
  lemma NothingLearned(parse: Parser, c: Cache, d: Delta)
    requires !d.hasVMID || d.name == ""
    requires (About(d, "virtualmachine") && !Deletes(d)) || (!About(d, "virtualmachine") && !About(d, "ipaddress"))
    ensures Update(parse, c, d) == c
  {
  }

  // ---- Address deltas and the cache ----

  predicate Addresses(d: Delta) {
    About(d, "ipaddress")
  }

  /** The delta takes the VM's addresses away: it says so, or it brings no usable one. */
  predicate TakesAway(parse: Parser, d: Delta) {
    || Deletes(d) || Trim(d.internal) == "" || d.outside == []
    || (parse(d.internal).Some? && forall i | 0 <= i < |d.outside| :: parse(d.outside[i]).None?)
  }

  /** It brings an internal address and at least one outside address for it. */
  predicate Brings(parse: Parser, d: Delta) {
    && !Deletes(d) && Trim(d.internal) != "" && parse(d.internal).Some?
    && exists i :: 0 <= i < |d.outside| && parse(d.outside[i]).Some?
  }

  /** x leads from one of the delta's outside addresses to its internal address. */
  predicate Brought(parse: Parser, d: Delta, v: int, x: Mapping) {
    && parse(d.internal) == Some(x.internal) && Parses(parse, d.outside, x.external)
    && x.vmid == v && x.name == Trim(d.name)
  }

  lemma {:induction false} EntriesSome(parse: Parser, outside: seq<string>, internal: Addr, v: int, name: string)
    ensures Entries(parse, outside, internal, v, name) == [] <==>
            forall i | 0 <= i < |outside| :: parse(outside[i]).None?
  {
    if outside != [] {
      EntriesSome(parse, outside[1..], internal, v, name);
      if forall i | 0 <= i < |outside[1..]| :: parse(outside[1..][i]).None? {
        assert forall i | 1 <= i < |outside| :: outside[i] == outside[1..][i - 1];
      } else {
        var i :| 0 <= i < |outside[1..]| && parse(outside[1..][i]).Some?;
        assert outside[i + 1] == outside[1..][i];
      }
    }
  }

  lemma ChangeIs(parse: Parser, d: Delta, v: int, name: string)
    ensures ChangeOf(parse, d, v, name).Drop? <==> TakesAway(parse, d)
    ensures ChangeOf(parse, d, v, name).Put? <==> Brings(parse, d)
    ensures Brings(parse, d) ==>
              ChangeOf(parse, d, v, name).entries == Entries(parse, d.outside, parse(d.internal).value, v, name)
  {
    if parse(d.internal).Some? {
      EntriesSome(parse, d.outside, parse(d.internal).value, v, name);
    }
  }

  /** An address delta leaves other VMs and other names alone. */
  ghost predicate OthersKept(c: Cache, m: Cache, d: Delta, v: int) {
    && m.ready == c.ready
    && (forall u | u != v && u > 0 :: Lookup(m.byVMID, u) == Lookup(c.byVMID, u))
    && (forall n | n != d.name && n != Trim(d.name) ::
          Lookup(m.pending, n) == Lookup(c.pending, n) && Lookup(m.idByName, n) == Lookup(c.idByName, n))
  }

  lemma LearnOthers(c: Cache, d: Delta, v: int)
    requires d.hasVMID ==> v == d.vmid
    ensures OthersKept(c, Learn(c, d), d, v)
  {
  }

  lemma ForgetOthers(c: Cache, d: Delta, v: int)
    ensures OthersKept(c, ForgetIP(c, v, Trim(d.name)), d, v)
  {
  }

  lemma StoreOthers(c: Cache, d: Delta, v: int, entries: seq<Mapping>)
    ensures OthersKept(c, StoreIP(c, v, Trim(d.name), entries), d, v)
  {
  }

  lemma UpdateOthers(parse: Parser, c: Cache, d: Delta, v: int)
    requires Addresses(d) && IsFor(c, d, Trim(d.name), v)
    ensures OthersKept(c, Update(parse, c, d), d, v)
  {
    var l, name := Learn(c, d), Trim(d.name);
    LearnOthers(c, d, v);
    ForgetOthers(l, d, v);
    var change := ChangeOf(parse, d, v, name);
    if change.Put? {
      StoreOthers(l, d, v, change.entries);
    }
    UpdateIs(parse, c, d, v);
    OthersTwice(c, l, Update(parse, c, d), d, v);
  }

  lemma UpdateIs(parse: Parser, c: Cache, d: Delta, v: int)
    requires Addresses(d) && IsFor(c, d, Trim(d.name), v)
    ensures var l, name, u := Learn(c, d), Trim(d.name), Update(parse, c, d);
            var change := ChangeOf(parse, d, v, name);
            || u == l || u == ForgetIP(l, v, name) || (change.Put? && u == StoreIP(l, v, name, change.entries))
  {
  }

  lemma OthersTwice(c: Cache, l: Cache, m: Cache, d: Delta, v: int)
    requires OthersKept(c, l, d, v) && (m == l || OthersKept(l, m, d, v))
    ensures OthersKept(c, m, d, v)
  {
  }

  /** A delta that brings addresses replaces the VM's mappings by exactly those it brings, and ties its name to it. */
  lemma AddressesReplace(parse: Parser, c: Cache, d: Delta, v: int, x: Mapping)
    requires Addresses(d) && IsFor(c, d, Trim(d.name), v) && Brings(parse, d) && v > 0
    ensures var m := Update(parse, c, d);
            && (x in At(m.byVMID, v) <==> Brought(parse, d, v, x))
            && (Trim(d.name) != "" ==> IdOf(m, Trim(d.name)) == v)
            && (d.hasVMID && d.name != "" ==> d.name !in m.pending)
            && OthersKept(c, m, d, v)
  {
    var name := Trim(d.name);
    ChangeIs(parse, d, v, name);
    EntriesHave(parse, d.outside, parse(d.internal).value, v, name, x);
    UpdateOthers(parse, c, d, v);
  }

  /** With no VMID to file them under they wait under the name. */
  lemma AddressesWait(parse: Parser, c: Cache, d: Delta, v: int, x: Mapping)
    requires Addresses(d) && IsFor(c, d, Trim(d.name), v) && Brings(parse, d) && v <= 0 && Trim(d.name) != ""
    ensures var m := Update(parse, c, d);
            && (x in At(m.pending, Trim(d.name)) <==> Brought(parse, d, v, x))
            && OthersKept(c, m, d, v)
  {
    var name := Trim(d.name);
    ChangeIs(parse, d, v, name);
    EntriesHave(parse, d.outside, parse(d.internal).value, v, name, x);
    UpdateOthers(parse, c, d, v);
  }

  /** A delta that takes addresses away leaves the VM none, filed or waiting. */
  lemma AddressesGo(parse: Parser, c: Cache, d: Delta, v: int)
    requires Addresses(d) && IsFor(c, d, Trim(d.name), v) && TakesAway(parse, d)
    ensures var m := Update(parse, c, d);
            && (v > 0 ==> v !in m.byVMID) && (Trim(d.name) != "" ==> Trim(d.name) !in m.pending)
            && OthersKept(c, m, d, v)
  {
    ChangeIs(parse, d, v, Trim(d.name));
    UpdateOthers(parse, c, d, v);
  }

  /** One whose internal address does not parse changes no entry, nor does one about nobody. */
  lemma AddressesStay(parse: Parser, c: Cache, d: Delta, v: int)
    requires Addresses(d) && IsFor(c, d, Trim(d.name), v) && !d.hasVMID
    requires (!Brings(parse, d) && !TakesAway(parse, d)) || (v <= 0 && Trim(d.name) == "")
    ensures Update(parse, c, d) == c
  {
    ChangeIs(parse, d, v, Trim(d.name));
  }

  // ---- Records ----

  lemma DeltaVmsPlaces(n: Node, m: Node, d: Delta, now: int)
    requires m.vms == DeltaVms(n.vms, d, now)
    ensures if d.hasVMID && Trim(d.name) != "" && About(d, "virtualmachine")
            then Placed(n, m, d.vmid, if Deletes(d) then P.Absent else P.Active, now)
            else m.vms == n.vms
  {
  }

  lemma AppliesKeeps(env: Env, n: Node, o: Origin, all: seq<Mapping>, t: Trouble, es: seq<Event>, m: Node)
    requires Step(env, n, Act.Apply(o, all, t), es, m)
    ensures m.vms == PreparedVms(n, o) && m.queued == n.queued && m.gate == n.gate
    ensures o.Hook? ==> m.cache == Update(env.parse, Readied(n.cache), o.d)
  {
  }

  lemma UpdateReady(parse: Parser, c: Cache, d: Delta)
    ensures Update(parse, c, d).ready == c.ready
  {
  }

  /** A VM delta that names the VM and its VMID makes it absent or active here; no other delta touches a record. */
  lemma DeltaPlaces(env: Env, n: Node, d: Delta, now: int, noRead: set<int>, all: seq<Mapping>, t: Trouble,
                    es: seq<Event>, m: Node)
    requires Step(env, n, Act.Apply(Hook(d, now, noRead), all, t), es, m)
    ensures if d.hasVMID && Trim(d.name) != "" && About(d, "virtualmachine")
            then Placed(n, m, d.vmid, if Deletes(d) then P.Absent else P.Active, now)
            else m.vms == n.vms
    ensures m.queued == n.queued && m.gate == n.gate
    ensures m.cache.ready && (n.cache.ready ==> m.cache == Update(env.parse, n.cache, d))
  {
    AppliesKeeps(env, n, Hook(d, now, noRead), all, t, es, m);
    UpdateReady(env.parse, Readied(n.cache), d);
    DeltaVmsPlaces(n, m, d, now);
  }

  // ---- Backups ----

  /** What the deletion of a VM does to the backups before the apply: only its own VMID is looked at by then. */
  lemma DeletionSyncs(parse: Parser, c: Cache, vms: P.VMs, b: B.Store, d: Delta, noRead: set<int>, v: int)
    requires About(d, "virtualmachine") && Deletes(d)
    ensures var after := SyncBackup(parse, Update(parse, c, d), vms, b, d, noRead);
            && after.closed == b.closed
            && Usable(after, v) == if !b.closed && d.hasVMID && d.vmid == v && v > 0 then [] else Usable(b, v)
  {
    var u := Target(Update(parse, c, d), d, d.name);
    assert u > 0 ==> d.hasVMID;
    AfterEnqueue(b, map[u := None], v);
  }

  /** The cached listing after a deletion has nothing for the VM. */
  lemma DeletedIsUnlisted(parse: Parser, c: Cache, d: Delta, all: seq<Mapping>, v: int)
    requires Filed(c) && About(d, "virtualmachine") && Deletes(d) && IsFor(c, d, d.name, v) && v > 0
    requires IsListing(Update(parse, c, d), all)
    ensures OfVM(all, v) == []
  {
    UpdateFiled(parse, c, d);
    DeletedVMIsForgotten(parse, c, d, v);
    ListingOfVM(Update(parse, c, d), all, v);
  }

  lemma ReadiedFiled(c: Cache)
    requires Filed(c)
    ensures Filed(Readied(c))
  {
  }

  /**
   The deletion of a VM takes its backup along exactly if it comes with the VMID, or the VM
   is active here, or there was nothing to take: under the name alone the VMID is not found
   any more, because the cache has just forgotten it. The VM is not programmed any more.
   */
  lemma DeletedVMLosesBackup(env: Env, n: Node, d: Delta, now: int, noRead: set<int>, all: seq<Mapping>, t: Trouble,
                             es: seq<Event>, m: Node, v: int)
    requires Inv(env, n) && Step(env, n, Act.Apply(Hook(d, now, noRead), all, t), es, m) && !n.backup.closed
    requires About(d, "virtualmachine") && Deletes(d) && IsFor(Readied(n.cache), d, d.name, v) && v > 0
    ensures Usable(m.backup, v) == [] <==> d.hasVMID || IsActive(m.vms, v) || Usable(n.backup, v) == []
    ensures v !in Programmed(env, n, Act.Apply(Hook(d, now, noRead), all, t))
  {
    var o := Hook(d, now, noRead);
    var j := JobOf(env, n, o, all, t);
    ReadiedFiled(n.cache);
    DeletedIsUnlisted(env.parse, Readied(n.cache), d, all, v);
    DeletionSyncs(env.parse, Readied(n.cache), PreparedVms(n, o), n.backup, d, noRead, v);
    AfterApply(j, v);
  }

  /** Merging an address delta into a backup keeps what the delta does not speak about and adds what it brings. */
  lemma {:induction false} KeptHas(parse: Parser, existing: seq<Mapping>, internal: Addr, outside: seq<string>,
                                   x: Mapping)
    ensures x in Kept(parse, existing, internal, outside) <==>
            x in existing && x.internal != internal && !Parses(parse, outside, x.external)
  {
    if existing != [] {
      var front, last := existing[..|existing| - 1], existing[|existing| - 1];
      assert existing == front + [last];
      KeptHas(parse, front, internal, outside, x);
    }
  }

  /** An address delta touches no backup but that of the VM it is for, and that one only if it is active here. */
  lemma AddressesElsewhere(parse: Parser, c: Cache, vms: P.VMs, b: B.Store, d: Delta, noRead: set<int>, v: int, u: int)
    requires Addresses(d) && IsFor(c, d, d.name, v)
    requires u != v || v <= 0 || !IsActive(vms, v) || parse(d.internal).None?
    ensures Usable(SyncBackup(parse, c, vms, b, d, noRead), u) == Usable(b, u)
  {
    if SyncsIP(parse, vms, d, v) {
      B.ViewLoad(b, {v}, noRead, u);
      AfterEnqueue(B.LoadAll(b, {v}, noRead), DeltaWrites(parse, d, v, B.LoadResultOf(b, v, noRead)), u);
    }
  }

  /** What the merge writes is what the backup then gives back. */
  lemma WritesMerge(parse: Parser, l: B.Store, d: Delta, v: int, r: B.LoadResult, internal: Addr)
    requires parse(d.internal) == Some(internal) && !r.Error? && FoundIn(r) == Usable(l, v) && !l.closed
    ensures Usable(B.EnqueueAll(l, DeltaWrites(parse, d, v, r)), v) == Merged(parse, Usable(l, v), d, internal, v)
  {
    var merged := Merged(parse, FoundIn(r), d, internal, v);
    AfterEnqueue(l, DeltaWrites(parse, d, v, r), v);
    if merged != [] {
      B.EncodeRoundTrip(merged, merged);
    }
  }

  lemma SyncMerges(parse: Parser, c: Cache, vms: P.VMs, b: B.Store, d: Delta, noRead: set<int>, v: int, internal: Addr)
    requires Addresses(d) && IsFor(c, d, d.name, v) && v > 0 && IsActive(vms, v) && !b.closed
    requires parse(d.internal) == Some(internal)
    ensures Usable(SyncBackup(parse, c, vms, b, d, noRead), v) ==
            if B.LoadResultOf(b, v, noRead).Error? then Usable(b, v)
            else Merged(parse, Usable(b, v), d, internal, v)
  {
    var r, l := B.LoadResultOf(b, v, noRead), B.LoadAll(b, {v}, noRead);
    B.ViewLoad(b, {v}, noRead, v);
    if r.Error? {
      AfterEnqueue(l, DeltaWrites(parse, d, v, r), v);
    } else {
      WritesMerge(parse, l, d, v, r, internal);
    }
  }

  /**
   An address delta for an active VM leaves in its backup, before the apply, exactly the
   mappings it does not speak about and those it brings; if the backup cannot be read it stays.
   */
  lemma AddressesBackedUp(parse: Parser, c: Cache, vms: P.VMs, b: B.Store, d: Delta, noRead: set<int>, v: int,
                          internal: Addr, x: Mapping)
    requires Addresses(d) && IsFor(c, d, d.name, v) && v > 0 && IsActive(vms, v) && !b.closed
    requires parse(d.internal) == Some(internal)
    ensures B.LoadResultOf(b, v, noRead).Error? ==>
              Usable(SyncBackup(parse, c, vms, b, d, noRead), v) == Usable(b, v)
    ensures !B.LoadResultOf(b, v, noRead).Error? ==>
            (x in Usable(SyncBackup(parse, c, vms, b, d, noRead), v) <==>
            || (x in Usable(b, v) && x.internal != internal && !Parses(parse, d.outside, x.external))
            || (!Deletes(d) && x.internal == internal && Parses(parse, d.outside, x.external) && x.vmid == v &&
                x.name == d.name))
  {
    SyncMerges(parse, c, vms, b, d, noRead, v, internal);
    KeptHas(parse, Usable(b, v), internal, d.outside, x);
    EntriesHave(parse, d.outside, internal, v, d.name, x);
  }
}
