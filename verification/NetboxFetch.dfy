/**
 The NetBox fetch: pages of addresses whose VMs are resolved inline where possible and
 otherwise in batches, against resolving every address by itself. Requests are replies
 that either fail or carry a page and, perhaps, a link to the next.
 */
module NetboxFetch {
  import opened Options
  import opened Text
  import opened Net
  import opened MappingCache

  datatype Reply<+T> = Failure | Last(results: seq<T>) | More(results: seq<T>, next: Reply<T>)

  /** Everything on the pages, if every request succeeds. */
  function AllResults<T>(r: Reply<T>): Option<seq<T>> {
    match r
    case Failure => None
    case Last(results) => Some(results)
    case More(results, next) =>
      var rest := AllResults(next);
      if rest.None? then None else Some(results + rest.value)
  }

  // ---- One VM, one address ----

  /** The proxmox_vmid custom field as JSON delivers it. */
  datatype Field = Missing | Null | Number(n: real) | Str(s: string) | Other

  datatype NetboxVM = NetboxVM(id: int, name: string, vmid: Field)

  datatype IPAddress = IPAddress(kind: Option<string>, vm: Option<NetboxVM>, address: string, outside: seq<string>)

  function DigitsValue(s: string): Option<nat> {
    if s == "" || !IsDigit(s[|s| - 1]) then None
    else
      var d := s[|s| - 1] as int - '0' as int;
      if |s| == 1 then Some(d)
      else
        var front := DigitsValue(s[..|s| - 1]);
        if front.None? then None else Some(10 * front.value + d)
  }

  const MAX_INT: int := 0x7fff_ffff_ffff_ffff

  /** strconv.Atoi: an optional sign and digits within 64 bits. */
  function Atoi(s: string): Option<int> {
    var negative := s != "" && s[0] == '-';
    var digits := if s != "" && s[0] in ['-', '+'] then s[1..] else s;
    var v := DigitsValue(digits);
    if v.None? then None
    else
      var k: int := v.value;
      var n := if negative then -k else k;
      if -MAX_INT - 1 <= n <= MAX_INT then Some(n) else None
  }

  lemma {:induction false} DigitsValueOfDigits(n: nat)
    ensures DigitsValue(Digits(n)) == Some(n)
  {
    var s := Digits(n);
    assert s[|s| - 1] == Digit(n % 10);
    if n >= 10 {
      DigitsAreDigits(n / 10);
      DigitsValueOfDigits(n / 10);
      assert s[..|s| - 1] == Digits(n / 10);
    }
  }

  /** A number a field writes as text is read back. */
  lemma AtoiItoa(n: int)
    requires -MAX_INT - 1 <= n <= MAX_INT
    ensures Atoi(Itoa(n)) == Some(n)
  {
    var k := if n < 0 then -n else n;
    var digits := Digits(k);
    DigitsAreDigits(k);
    DigitsValueOfDigits(k);
    assert digits[0] != '-' && digits[0] != '+';
    assert ("-" + digits)[1..] == digits;
  }

  function VmidOf(vm: NetboxVM): Option<int> {
    match vm.vmid
    case Number(n) => if n > 0.0 then Some(n.Floor) else None
    case Str(s) =>
      var v := Atoi(Trim(s));
      if v.Some? && v.value > 0 then v else None
    case _ => None
  }

  /** A usable VMID is positive, except that a fraction below one is cut down to zero. */
  lemma VmidPositive(vm: NetboxVM)
    ensures VmidOf(vm).Some? ==> VmidOf(vm).value >= 0
    ensures VmidOf(vm) == Some(0) <==> vm.vmid.Number? && 0.0 < vm.vmid.n < 1.0
  {
  }

  predicate OnVMInterface(ip: IPAddress) {
    ip.kind == Some("virtualization.vminterface") && ip.vm.Some? && ip.vm.value.name != ""
  }

  /** One mapping per outside address; malformed addresses are passed over. */
  function MappingsFor(parse: Parser, ip: IPAddress, v: int): seq<Mapping>
    requires ip.vm.Some?
  {
    var internal := parse(ip.address);
    if internal.None? then [] else Entries(parse, ip.outside, internal.value, v, ip.vm.value.name)
  }

  // ---- Address by address ----

  type VmidOracle = int -> Option<int>

  /** What one address contributes when its VM is looked up on its own. */
  function NaiveFor(parse: Parser, lookup: VmidOracle, ip: IPAddress): seq<Mapping> {
    if !OnVMInterface(ip) then []
    else
      var vm := ip.vm.value;
      var inline := VmidOf(vm);
      var v := if inline.Some? then inline else if vm.id > 0 then lookup(vm.id) else None;
      if v.None? then [] else MappingsFor(parse, ip, v.value)
  }

  function Naive(parse: Parser, lookup: VmidOracle, ips: seq<IPAddress>): seq<Mapping> {
    if ips == [] then []
    else Naive(parse, lookup, ips[..|ips| - 1]) + NaiveFor(parse, lookup, ips[|ips| - 1])
  }

  // ---- In two phases ----

  predicate Inlined(ip: IPAddress) {
    OnVMInterface(ip) && VmidOf(ip.vm.value).Some?
  }

  predicate Waits(ip: IPAddress) {
    OnVMInterface(ip) && VmidOf(ip.vm.value).None? && ip.vm.value.id > 0
  }

  function Inline(parse: Parser, ips: seq<IPAddress>): seq<Mapping> {
    if ips == [] then []
    else
      var ip := ips[|ips| - 1];
      Inline(parse, ips[..|ips| - 1]) + (if Inlined(ip) then MappingsFor(parse, ip, VmidOf(ip.vm.value).value) else [])
  }

  function Waiting(ips: seq<IPAddress>): (ws: seq<IPAddress>)
    ensures forall w | w in ws :: Waits(w) && w in ips
    ensures forall w | w in ips && Waits(w) :: w in ws
  {
    if ips == [] then []
    else
      assert ips == ips[..|ips| - 1] + [ips[|ips| - 1]];
      Waiting(ips[..|ips| - 1]) + (if Waits(ips[|ips| - 1]) then [ips[|ips| - 1]] else [])
  }

  /** The NetBox ids to ask for, in the order they first come up. */
  function Needed(ips: seq<IPAddress>): seq<int> {
    if ips == [] then []
    else
      var ip, front := ips[|ips| - 1], Needed(ips[..|ips| - 1]);
      if Waits(ip) && ip.vm.value.id !in front then front + [ip.vm.value.id] else front
  }

  /** Exactly the ids of the addresses that wait, each once. */
  lemma {:induction false} NeededIds(ips: seq<IPAddress>)
    ensures forall id :: id in Needed(ips) <==> exists ip :: ip in ips && Waits(ip) && ip.vm.value.id == id
    ensures forall i, j | 0 <= i < j < |Needed(ips)| :: Needed(ips)[i] != Needed(ips)[j]
  {
    if ips != [] {
      NeededIds(ips[..|ips| - 1]);
      assert ips == ips[..|ips| - 1] + [ips[|ips| - 1]];
    }
  }

  function Late(parse: Parser, resolved: map<int, int>, ws: seq<IPAddress>): seq<Mapping>
    requires forall w | w in ws :: Waits(w)
  {
    if ws == [] then []
    else
      var w := ws[|ws| - 1];
      assert w in ws && Waits(w);
      Late(parse, resolved, ws[..|ws| - 1]) +
      (if w.vm.value.id in resolved then MappingsFor(parse, w, resolved[w.vm.value.id]) else [])
  }

  // ---- Batches ----

  const BATCH: nat := 100

  function Batches(ids: seq<int>): seq<seq<int>> {
    if ids == [] then []
    else if |ids| <= BATCH then [ids]
    else [ids[..BATCH]] + Batches(ids[BATCH..])
  }

  function Flat(qs: seq<seq<int>>): seq<int> {
    if qs == [] then [] else qs[0] + Flat(qs[1..])
  }

  /** The batches are the ids cut into pieces of at most a hundred, nothing lost, nothing twice, none empty. */
  lemma {:induction false} BatchesPartition(ids: seq<int>)
    ensures Flat(Batches(ids)) == ids
    ensures forall q | q in Batches(ids) :: 1 <= |q| <= BATCH
    ensures |Batches(ids)| == (|ids| + BATCH - 1) / BATCH
  {
    if |ids| > BATCH {
      BatchesPartition(ids[BATCH..]);
      assert ids == ids[..BATCH] + ids[BATCH..];
      assert Batches(ids)[1..] == Batches(ids[BATCH..]);
    } else if ids != [] {
      assert Batches(ids)[1..] == [];
    }
  }

  type VMServer = seq<int> -> Reply<NetboxVM>

  function Learned(m: map<int, int>, vms: seq<NetboxVM>): map<int, int> {
    if vms == [] then m
    else
      var vm, front := vms[|vms| - 1], Learned(m, vms[..|vms| - 1]);
      if VmidOf(vm).Some? then front[vm.id := VmidOf(vm).value] else front
  }

  predicate BatchFails(server: VMServer, q: seq<int>) {
    AllResults(server(q)).None?
  }

  function ResolveAll(server: VMServer, qs: seq<seq<int>>): Option<map<int, int>> {
    if qs == [] then Some(map[])
    else
      var front, q := ResolveAll(server, qs[..|qs| - 1]), qs[|qs| - 1];
      if front.None? || BatchFails(server, q) then None
      else Some(Learned(front.value, AllResults(server(q)).value))
  }

  /** A server that knows the VMs of the oracle: it answers a batch with the VMs asked for, each with its VMID. */
  ghost predicate AnswersFor(vms: seq<NetboxVM>, q: seq<int>, lookup: VmidOracle) {
    && (forall vm | vm in vms :: VmidOf(vm) == lookup(vm.id))
    && (forall id | id in q && lookup(id).Some? :: exists vm :: vm in vms && vm.id == id)
  }

  ghost predicate Honest(server: VMServer, lookup: VmidOracle) {
    forall q: seq<int> :: AllResults(server(q)).Some? ==> AnswersFor(AllResults(server(q)).value, q, lookup)
  }

  /** What has been learned agrees with the oracle and covers the ids asked for. */
  ghost predicate Covers(m: map<int, int>, ids: seq<int>, lookup: VmidOracle) {
    (forall id | id in m :: lookup(id) == Some(m[id])) && (forall id | id in ids && lookup(id).Some? :: id in m)
  }

  lemma {:induction false} LearnedAgrees(m: map<int, int>, vms: seq<NetboxVM>, lookup: VmidOracle)
    requires forall vm | vm in vms :: VmidOf(vm) == lookup(vm.id)
    requires forall id | id in m :: lookup(id) == Some(m[id])
    ensures forall id | id in Learned(m, vms) :: lookup(id) == Some(Learned(m, vms)[id])
    ensures forall id | id in m :: id in Learned(m, vms)
    ensures forall vm | vm in vms && VmidOf(vm).Some? :: vm.id in Learned(m, vms)
  {
    if vms != [] {
      var front := vms[..|vms| - 1];
      assert vms == front + [vms[|vms| - 1]];
      LearnedAgrees(m, front, lookup);
    }
  }

  lemma {:induction false} FlatAppend(qs: seq<seq<int>>, q: seq<int>)
    ensures Flat(qs + [q]) == Flat(qs) + q
  {
    if qs == [] {
      assert Flat([q]) == q + Flat([]);
    } else {
      FlatAppend(qs[1..], q);
      assert (qs + [q])[1..] == qs[1..] + [q];
    }
  }

  lemma {:induction false} ResolveAllFails(server: VMServer, qs: seq<seq<int>>)
    ensures ResolveAll(server, qs).None? <==> exists q :: q in qs && BatchFails(server, q)
  {
    if qs != [] {
      ResolveAllFails(server, qs[..|qs| - 1]);
      assert qs == qs[..|qs| - 1] + [qs[|qs| - 1]];
    }
  }

  lemma {:induction false} ResolveAllCovers(server: VMServer, lookup: VmidOracle, qs: seq<seq<int>>)
    requires Honest(server, lookup) && ResolveAll(server, qs).Some?
    ensures Covers(ResolveAll(server, qs).value, Flat(qs), lookup)
  {
    if qs != [] {
      var front, q := qs[..|qs| - 1], qs[|qs| - 1];
      ResolveAllCovers(server, lookup, front);
      assert qs == front + [q];
      FlatAppend(front, q);
      CoversMore(ResolveAll(server, front).value, Flat(front), AllResults(server(q)).value, q, lookup);
    }
  }

  lemma CoversMore(m: map<int, int>, ids: seq<int>, vms: seq<NetboxVM>, q: seq<int>, lookup: VmidOracle)
    requires Covers(m, ids, lookup) && AnswersFor(vms, q, lookup)
    ensures Covers(Learned(m, vms), ids + q, lookup)
  {
    LearnedAgrees(m, vms, lookup);
    forall id | id in ids + q && lookup(id).Some? ensures id in Learned(m, vms) {
      if id in q {
        var vm :| vm in vms && vm.id == id;
      }
    }
  }

  // ---- The whole fetch ----

  function Fetched(parse: Parser, reply: Reply<IPAddress>, server: VMServer): Option<seq<Mapping>> {
    var ips := AllResults(reply);
    if ips.None? then None
    else
      var resolved := ResolveAll(server, Batches(Needed(ips.value)));
      if resolved.None? then None
      else Some(Inline(parse, ips.value) + Late(parse, resolved.value, Waiting(ips.value)))
  }

  /** Whether new mappings join at once or late is of no consequence for the bag. */
  lemma Shuffle(inline: seq<Mapping>, now: seq<Mapping>, late: seq<Mapping>)
    ensures multiset((inline + now) + late) == multiset(inline + late) + multiset(now)
    ensures multiset(inline + (late + now)) == multiset(inline + late) + multiset(now)
  {
  }

  lemma OneAddress(parse: Parser, ips: seq<IPAddress>, ip: IPAddress)
    ensures Inline(parse, ips + [ip]) ==
            if Inlined(ip) then Inline(parse, ips) + MappingsFor(parse, ip, VmidOf(ip.vm.value).value)
            else Inline(parse, ips)
    ensures Waiting(ips + [ip]) == if Waits(ip) then Waiting(ips) + [ip] else Waiting(ips)
    ensures Needed(ips + [ip]) ==
            if Waits(ip) && ip.vm.value.id !in Needed(ips) then Needed(ips) + [ip.vm.value.id] else Needed(ips)
  {
    assert (ips + [ip])[..|ips|] == ips;
  }

  lemma OneLate(parse: Parser, resolved: map<int, int>, ws: seq<IPAddress>, w: IPAddress)
    requires Waits(w) && forall w | w in ws :: Waits(w)
    ensures Late(parse, resolved, ws + [w]) ==
            Late(parse, resolved, ws) +
            (if w.vm.value.id in resolved then MappingsFor(parse, w, resolved[w.vm.value.id]) else [])
  {
    assert (ws + [w])[..|ws|] == ws;
  }

  lemma OnePhaseMore(parse: Parser, lookup: VmidOracle, resolved: map<int, int>, ips: seq<IPAddress>, ip: IPAddress)
    requires Waits(ip) ==> Lookup(resolved, ip.vm.value.id) == lookup(ip.vm.value.id)
    ensures multiset(Inline(parse, ips + [ip]) + Late(parse, resolved, Waiting(ips + [ip]))) ==
            multiset(Inline(parse, ips) + Late(parse, resolved, Waiting(ips))) + multiset(NaiveFor(parse, lookup, ip))
  {
    OneAddress(parse, ips, ip);
    var inline, late, now := Inline(parse, ips), Late(parse, resolved, Waiting(ips)), NaiveFor(parse, lookup, ip);
    Shuffle(inline, now, late);
    if Waits(ip) {
      OneLate(parse, resolved, Waiting(ips), ip);
    } else if !Inlined(ip) {
      assert now == [];
    }
  }

  /** What has been resolved agrees with the lookup on every address that waits. */
  ghost predicate Agrees(lookup: VmidOracle, resolved: map<int, int>, ips: seq<IPAddress>) {
    forall ip | ip in ips && Waits(ip) :: Lookup(resolved, ip.vm.value.id) == lookup(ip.vm.value.id)
  }

  lemma AgreesFront(lookup: VmidOracle, resolved: map<int, int>, front: seq<IPAddress>, ip: IPAddress)
    requires Agrees(lookup, resolved, front + [ip])
    ensures Agrees(lookup, resolved, front)
    ensures Waits(ip) ==> Lookup(resolved, ip.vm.value.id) == lookup(ip.vm.value.id)
  {
    assert ip in front + [ip];
    assert forall x | x in front :: x in front + [ip];
  }

  ghost predicate PhasesAreNaive(parse: Parser, lookup: VmidOracle, resolved: map<int, int>, ips: seq<IPAddress>) {
    multiset(Inline(parse, ips) + Late(parse, resolved, Waiting(ips))) == multiset(Naive(parse, lookup, ips))
  }

  lemma NaiveOneMore(parse: Parser, lookup: VmidOracle, ips: seq<IPAddress>, ip: IPAddress)
    ensures multiset(Naive(parse, lookup, ips + [ip])) ==
            multiset(Naive(parse, lookup, ips)) + multiset(NaiveFor(parse, lookup, ip))
  {
    assert (ips + [ip])[..|ips|] == ips;
  }

  lemma PhasesOneMore(parse: Parser, lookup: VmidOracle, resolved: map<int, int>, ips: seq<IPAddress>, ip: IPAddress)
    requires Waits(ip) ==> Lookup(resolved, ip.vm.value.id) == lookup(ip.vm.value.id)
    requires PhasesAreNaive(parse, lookup, resolved, ips)
    ensures PhasesAreNaive(parse, lookup, resolved, ips + [ip])
  {
    OnePhaseMore(parse, lookup, resolved, ips, ip);
    NaiveOneMore(parse, lookup, ips, ip);
  }

  lemma {:induction false} TwoPhases(parse: Parser, lookup: VmidOracle, resolved: map<int, int>, ips: seq<IPAddress>)
    requires Agrees(lookup, resolved, ips)
    ensures PhasesAreNaive(parse, lookup, resolved, ips)
  {
    if ips != [] {
      var front, ip := ips[..|ips| - 1], ips[|ips| - 1];
      assert ips == front + [ip];
      AgreesFront(lookup, resolved, front, ip);
      TwoPhases(parse, lookup, resolved, front);
      PhasesOneMore(parse, lookup, resolved, front, ip);
    }
  }

  /**
   The batched fetch returns, up to order, what looking up every address by itself returns,
   and it fails exactly if a page of addresses or a batch of VMs cannot be had.
   */
  lemma BatchedIsNaive(parse: Parser, reply: Reply<IPAddress>, server: VMServer, lookup: VmidOracle)
    ensures var ips, r := AllResults(reply), Fetched(parse, reply, server);
            && (r.None? <==> ips.None? || exists q :: q in Batches(Needed(ips.value)) && BatchFails(server, q))
            && (r.Some? && Honest(server, lookup) ==> multiset(r.value) == multiset(Naive(parse, lookup, ips.value)))
  {
    var all := AllResults(reply);
    if all.Some? {
      var ips, ids := all.value, Needed(all.value);
      ResolveAllFails(server, Batches(ids));
      var resolved := ResolveAll(server, Batches(ids));
      if resolved.Some? && Honest(server, lookup) {
        BatchesPartition(ids);
        ResolveAllCovers(server, lookup, Batches(ids));
        NeededIds(ips);
        forall ip | ip in ips && Waits(ip) ensures Lookup(resolved.value, ip.vm.value.id) == lookup(ip.vm.value.id) {
          assert ip.vm.value.id in ids;
        }
        TwoPhases(parse, lookup, resolved.value, ips);
      }
    }
  }

  // ---- The client's loops ----

  method ExpandIP(parse: Parser, ip: IPAddress, v: int) returns (out: seq<Mapping>)
    requires ip.vm.Some?
    ensures out == MappingsFor(parse, ip, v)
  {
    var internal := parse(ip.address);
    if internal.None? {
      return [];
    }
    out := [];
    for i := 0 to |ip.outside|
      invariant out + Entries(parse, ip.outside[i..], internal.value, v, ip.vm.value.name) ==
                Entries(parse, ip.outside, internal.value, v, ip.vm.value.name)
    {
      var ext := parse(ip.outside[i]);
      assert ip.outside[i..][1..] == ip.outside[i + 1..];
      if ext.Some? {
        out := out + [Mapping(ext.value, internal.value, v, ip.vm.value.name)];
      }
    }
  }

  lemma Prefixes<T>(before: seq<T>, page: seq<T>, i: nat)
    requires i <= |page|
    ensures before + page[..0] == before && before + page[..|page|] == before + page
    ensures i < |page| ==> before + page[..i + 1] == before + page[..i] + [page[i]]
  {
    assert i < |page| ==> page[..i + 1] == page[..i] + [page[i]];
  }

  ghost predicate ReadSoFar(parse: Parser, seen: seq<IPAddress>, mappings: seq<Mapping>, unresolved: seq<IPAddress>,
                            need: seq<int>) {
    mappings == Inline(parse, seen) && unresolved == Waiting(seen) && need == Needed(seen)
  }

  /** One address: resolved inline, put off, or passed over. */
  method ReadAddress(parse: Parser, ip: IPAddress, ghost seen: seq<IPAddress>,
                     mappings: seq<Mapping>, unresolved: seq<IPAddress>, need: seq<int>)
    returns (mappings': seq<Mapping>, unresolved': seq<IPAddress>, need': seq<int>)
    requires ReadSoFar(parse, seen, mappings, unresolved, need)
    ensures ReadSoFar(parse, seen + [ip], mappings', unresolved', need')
  {
    mappings', unresolved', need' := mappings, unresolved, need;
    OneAddress(parse, seen, ip);
    if !OnVMInterface(ip) {
      return;
    }
    var inline := VmidOf(ip.vm.value);
    if inline.Some? {
      var expanded := ExpandIP(parse, ip, inline.value);
      mappings' := mappings + expanded;
    } else if ip.vm.value.id > 0 {
      unresolved' := unresolved + [ip];
      if ip.vm.value.id !in need {
        need' := need + [ip.vm.value.id];
      }
    }
  }

  /** One page: what is resolved inline, what has to wait, and the ids to ask for. */
  method ReadPage(parse: Parser, page: seq<IPAddress>, ghost before: seq<IPAddress>,
                  mappings: seq<Mapping>, unresolved: seq<IPAddress>, need: seq<int>)
    returns (mappings': seq<Mapping>, unresolved': seq<IPAddress>, need': seq<int>)
    requires ReadSoFar(parse, before, mappings, unresolved, need)
    ensures ReadSoFar(parse, before + page, mappings', unresolved', need')
  {
    mappings', unresolved', need' := mappings, unresolved, need;
    ghost var seen := before;
    Prefixes(before, page, 0);
    for i := 0 to |page|
      invariant seen == before + page[..i] && ReadSoFar(parse, seen, mappings', unresolved', need')
    {
      mappings', unresolved', need' := ReadAddress(parse, page[i], seen, mappings', unresolved', need');
      Prefixes(before, page, i);
      seen := seen + [page[i]];
    }
    Prefixes(before, page, |page|);
  }

  method FetchProxmoxVMIDs(ids: seq<int>, server: VMServer) returns (r: Option<map<int, int>>)
    ensures r == ResolveAll(server, Batches(ids))
  {
    var resolved: map<int, int> := map[];
    var start := 0;
    ghost var done: seq<seq<int>> := [];
    while start < |ids|
      invariant 0 <= start <= |ids|
      invariant Batches(ids) == done + Batches(ids[start..])
      invariant ResolveAll(server, done) == Some(resolved)
    {
      var end := if start + BATCH > |ids| then |ids| else start + BATCH;
      var q := ids[start..end];
      NextBatch(ids, start, end, done);
      ghost var last := done + [q];
      assert last[..|last| - 1] == done;
      var one := FetchBatch(server(q), resolved);
      if one.None? {
        FailsForGood(server, last, Batches(ids[end..]));
        return None;
      }
      resolved, start, done := one.value, end, last;
    }
    assert ids[start..] == [] && done + [] == done;
    r := Some(resolved);
  }

  /** One page of a batch. */
  method LearnPage(page: seq<NetboxVM>, m: map<int, int>, ghost resolved: map<int, int>, ghost seen: seq<NetboxVM>)
    returns (m': map<int, int>)
    requires m == Learned(resolved, seen)
    ensures m' == Learned(resolved, seen + page)
  {
    m' := m;
    ghost var read := seen;
    Prefixes(seen, page, 0);
    for i := 0 to |page|
      invariant read == seen + page[..i] && m' == Learned(resolved, read)
    {
      assert (read + [page[i]])[..|read|] == read;
      var v := VmidOf(page[i]);
      if v.Some? {
        m' := m'[page[i].id := v.value];
      }
      Prefixes(seen, page, i);
      read := read + [page[i]];
    }
    Prefixes(seen, page, |page|);
  }

  method FetchBatch(reply: Reply<NetboxVM>, resolved: map<int, int>) returns (r: Option<map<int, int>>)
    ensures r == if AllResults(reply).None? then None else Some(Learned(resolved, AllResults(reply).value))
  {
    var m := resolved;
    var endpoint, more := reply, true;
    ghost var seen: seq<NetboxVM> := [];
    AfterNothing(AllResults(reply));
    while more
      invariant m == Learned(resolved, seen)
      invariant AllResults(reply) == if more then After(seen, AllResults(endpoint)) else Some(seen)
      decreases more, endpoint
    {
      if endpoint.Failure? {
        return None;
      }
      m := LearnPage(endpoint.results, m, resolved, seen);
      PageRead(seen, endpoint);
      seen := seen + endpoint.results;
      more := endpoint.More?;
      if more {
        endpoint := endpoint.next;
      }
    }
    r := Some(m);
  }

  /** The first phase: all pages of addresses. */
  method ReadPages(parse: Parser, reply: Reply<IPAddress>)
    returns (ok: bool, mappings: seq<Mapping>, unresolved: seq<IPAddress>, need: seq<int>)
    ensures ok <==> AllResults(reply).Some?
    ensures ok ==> ReadSoFar(parse, AllResults(reply).value, mappings, unresolved, need)
  {
    mappings, unresolved, need := [], [], [];
    var url, more := reply, true;
    ghost var seen: seq<IPAddress> := [];
    AfterNothing(AllResults(reply));
    while more
      invariant ReadSoFar(parse, seen, mappings, unresolved, need)
      invariant AllResults(reply) == if more then After(seen, AllResults(url)) else Some(seen)
      decreases more, url
    {
      if url.Failure? {
        return false, [], [], [];
      }
      mappings, unresolved, need := ReadPage(parse, url.results, seen, mappings, unresolved, need);
      PageRead(seen, url);
      seen := seen + url.results;
      more := url.More?;
      if more {
        url := url.next;
      }
    }
    ok := true;
  }

  /** The second phase: the addresses that had to wait for their VM. */
  method ExpandLate(parse: Parser, resolved: map<int, int>, unresolved: seq<IPAddress>) returns (late: seq<Mapping>)
    requires forall w | w in unresolved :: Waits(w)
    ensures late == Late(parse, resolved, unresolved)
  {
    late := [];
    for i := 0 to |unresolved|
      invariant late == Late(parse, resolved, unresolved[..i])
    {
      assert unresolved[..i + 1][..i] == unresolved[..i];
      var w := unresolved[i];
      assert w in unresolved && Waits(w);
      if w.vm.value.id in resolved {
        var expanded := ExpandIP(parse, w, resolved[w.vm.value.id]);
        late := late + expanded;
      }
    }
    assert unresolved[..|unresolved|] == unresolved;
  }

  method FetchNATMappings(parse: Parser, reply: Reply<IPAddress>, server: VMServer) returns (r: Option<seq<Mapping>>)
    ensures r == Fetched(parse, reply, server)
  {
    var ok, mappings, unresolved, need := ReadPages(parse, reply);
    if !ok {
      return None;
    }
    if |need| == 0 {
      WaitingNeedsIds(AllResults(reply).value);
      assert mappings + [] == mappings;
      return Some(mappings);
    }
    var resolved := FetchProxmoxVMIDs(need, server);
    if resolved.None? {
      return None;
    }
    var late := ExpandLate(parse, resolved.value, unresolved);
    r := Some(mappings + late);
  }

  /** What is still to come, after what has been read. */
  function After<T>(seen: seq<T>, rest: Option<seq<T>>): Option<seq<T>> {
    if rest.None? then None else Some(seen + rest.value)
  }

  lemma AfterNothing<T>(rest: Option<seq<T>>)
    ensures After([], rest) == rest
  {
    if rest.Some? {
      assert [] + rest.value == rest.value;
    }
  }

  lemma PageRead<T>(seen: seq<T>, reply: Reply<T>)
    requires !reply.Failure?
    ensures After(seen, AllResults(reply)) ==
            if reply.Last? then Some(seen + reply.results) else After(seen + reply.results, AllResults(reply.next))
  {
    if reply.More? && AllResults(reply.next).Some? {
      assert seen + (reply.results + AllResults(reply.next).value) ==
             seen + reply.results + AllResults(reply.next).value;
    }
  }

  lemma NextBatch(ids: seq<int>, start: nat, end: nat, done: seq<seq<int>>)
    requires start < |ids| && end == if start + BATCH > |ids| then |ids| else start + BATCH
    ensures done + Batches(ids[start..]) == done + [ids[start..end]] + Batches(ids[end..])
  {
    var rest := ids[start..];
    if |rest| <= BATCH {
      assert rest == ids[start..end] && ids[end..] == [];
    } else {
      assert rest[..BATCH] == ids[start..end] && rest[BATCH..] == ids[end..];
    }
  }

  lemma FailsForGood(server: VMServer, qs: seq<seq<int>>, more: seq<seq<int>>)
    requires ResolveAll(server, qs).None?
    ensures ResolveAll(server, qs + more).None?
  {
    ResolveAllFails(server, qs);
    ResolveAllFails(server, qs + more);
    var q :| q in qs && BatchFails(server, q);
    assert q in qs + more;
  }

  lemma WaitingNeedsIds(ips: seq<IPAddress>)
    ensures Waiting(ips) != [] ==> Needed(ips) != []
  {
    NeededIds(ips);
    if Waiting(ips) != [] {
      var w := Waiting(ips)[0];
      assert w in ips && Waits(w);
      assert w.vm.value.id in Needed(ips);
    }
  }
}
