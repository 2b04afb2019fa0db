/**
 The gate in front of snapshot-driven fetches: the fingerprint of the VMs a node holds
 and the time of the last fetch that succeeded.
 */
module FetchGate {
  import opened Options
  import opened Text
  import opened Placement

  // ---- The fingerprint ----

  function IdText(id: int): string {
    Itoa(id) + ","
  }

  function KeyText(ids: seq<int>): string {
    Join(IdText, ids)
  }

  predicate Ascending(q: seq<int>) {
    forall i, j | 0 <= i < j < |q| :: q[i] < q[j]
  }

  lemma IdTextSelfDelimiting()
    ensures SelfDelimiting(IdText)
  {
    forall x: int, y: int, s: string, t: string | IdText(x) + s == IdText(y) + t
      ensures x == y
    {
      NoComma(x);
      NoComma(y);
      assert Itoa(x) + [','] + s == IdText(x) + s && Itoa(y) + [','] + t == IdText(y) + t;
      SplitAtFirst(Itoa(x), Itoa(y), ',', s, t);
      ItoaInjective(x, y);
    }
  }

  lemma NoComma(n: int)
    ensures ',' !in Itoa(n)
  {
    DigitsAreDigits(if n < 0 then -n else n);
  }

  lemma {:induction false} AscendingUnique(p: seq<int>, q: seq<int>)
    requires Ascending(p) && Ascending(q)
    requires forall x :: x in p <==> x in q
    ensures p == q
  {
    assert p != [] ==> p[0] in p;
    assert q != [] ==> q[0] in q;
    if p != [] && q != [] {
      assert p[0] in q && q[0] in p;
      assert p[0] == q[0];
      forall x ensures x in p[1..] <==> x in q[1..] {
        assert x in p[1..] <==> x in p && x != p[0];
        assert x in q[1..] <==> x in q && x != q[0];
      }
      AscendingUnique(p[1..], q[1..]);
      assert p == [p[0]] + p[1..] && q == [q[0]] + q[1..];
    }
  }

  function InsertId(x: int, q: seq<int>): seq<int> {
    if q == [] || x < q[0] then [x] + q
    else [q[0]] + InsertId(x, q[1..])
  }

  lemma {:induction false} InsertIdAscending(x: int, q: seq<int>)
    requires Ascending(q) && x !in q
    ensures Ascending(InsertId(x, q))
    ensures forall y :: y in InsertId(x, q) <==> y == x || y in q
  {
    if q == [] || x < q[0] {
    } else {
      InsertIdAscending(x, q[1..]);
      assert q == [q[0]] + q[1..];
      var rest := InsertId(x, q[1..]);
      forall i | 0 <= i < |rest| ensures q[0] < rest[i] {
        assert rest[i] in rest;
      }
    }
  }

  /** The ids in ascending order. */
  ghost function SortedIds(s: set<int>): (q: seq<int>)
    ensures Ascending(q) && forall x :: x in q <==> x in s
    decreases s
  {
    if s == {} then []
    else
      var x := Pick(s);
      var rest := SortedIds(s - {x});
      InsertIdAscending(x, rest);
      InsertId(x, rest)
  }

  /** The fingerprint of a set of VMs. */
  ghost function KeyOf(s: set<int>): string {
    KeyText(SortedIds(s))
  }

  /** Equal fingerprints mean equal sets. */
  lemma KeyOfInjective(s: set<int>, t: set<int>)
    ensures KeyOf(s) == KeyOf(t) <==> s == t
  {
    if KeyOf(s) == KeyOf(t) {
      IdTextSelfDelimiting();
      JoinInjective(IdText, SortedIds(s), SortedIds(t));
      assert forall x :: x in s <==> x in t;
    }
  }

  /** Sorting the ids of a set, however they were gathered, gives its fingerprint. */
  lemma KeyTextIsKeyOf(q: seq<int>, s: set<int>)
    requires Ascending(q) && forall x :: x in q <==> x in s
    ensures KeyText(q) == KeyOf(s)
  {
    AscendingUnique(q, SortedIds(s));
  }

  // ---- The gate ----

  datatype Gate = Gate(last: int, key: string)

  const NO_FETCH := Gate(ZERO_TIME, "")

  const MAX_DURATION: int := 0x7fff_ffff_ffff_ffff

  /** time.Since saturates at the longest duration. */
  function Since(last: int, now: int): int {
    if now - last > MAX_DURATION then MAX_DURATION else now - last
  }

  predicate ShouldFetch(g: Gate, key: string, interval: int, now: int) {
    key != g.key || interval <= 0 || Since(g.last, now) >= interval
  }

  function Held(vms: VMs): set<int> {
    set v | v in vms && vms[v].status != Absent
  }

  /** One step of the gate's history: a fetch that succeeded with these VMs held, or one that failed. */
  datatype Fetch = Succeeded(now: int, held: set<int>) | FetchFailed

  ghost function After(g: Gate, fs: seq<Fetch>): Gate {
    if fs == [] then g
    else if fs[|fs| - 1].FetchFailed? then After(g, fs[..|fs| - 1])
    else Gate(fs[|fs| - 1].now, KeyOf(fs[|fs| - 1].held))
  }

  /** The last fetch that succeeded. */
  predicate LastSuccess(fs: seq<Fetch>, i: int) {
    0 <= i < |fs| && fs[i].Succeeded? && forall j | i < j < |fs| :: fs[j].FetchFailed?
  }

  lemma {:induction false} AfterLastSuccess(g: Gate, fs: seq<Fetch>)
    ensures (forall j | 0 <= j < |fs| :: fs[j].FetchFailed?) ==> After(g, fs) == g
    ensures forall i | LastSuccess(fs, i) :: After(g, fs) == Gate(fs[i].now, KeyOf(fs[i].held))
  {
    if fs != [] && fs[|fs| - 1].FetchFailed? {
      var front := fs[..|fs| - 1];
      AfterLastSuccess(g, front);
      forall i | LastSuccess(fs, i) ensures After(g, fs) == Gate(fs[i].now, KeyOf(fs[i].held)) {
        assert LastSuccess(front, i);
      }
    }
  }

  lemma {:induction false} SuccessOrNone(fs: seq<Fetch>) returns (i: int)
    ensures LastSuccess(fs, i) || forall j | 0 <= j < |fs| :: fs[j].FetchFailed?
  {
    if fs == [] {
      i := 0;
    } else if fs[|fs| - 1].Succeeded? {
      i := |fs| - 1;
    } else {
      i := SuccessOrNone(fs[..|fs| - 1]);
      if !LastSuccess(fs[..|fs| - 1], i) {
        assert forall j | 0 <= j < |fs| - 1 :: fs[..|fs| - 1][j] == fs[j];
      }
    }
  }

  /**
   Over any history of fetches, a snapshot batch skips the fetch exactly when the last
   success is younger than the interval and was made with exactly the VMs held now.
   */
  lemma GateSound(fs: seq<Fetch>, held: set<int>, interval: int, now: int)
    requires 0 <= now && interval <= MAX_DURATION
    ensures !ShouldFetch(After(NO_FETCH, fs), KeyOf(held), interval, now) <==>
            interval > 0 && exists i :: LastSuccess(fs, i) && fs[i].held == held && now - fs[i].now < interval
  {
    var i := SuccessOrNone(fs);
    AfterLastSuccess(NO_FETCH, fs);
    if LastSuccess(fs, i) {
      KeyOfInjective(fs[i].held, held);
      assert forall j | LastSuccess(fs, j) :: j == i;
    }
  }

  // ---- Computing the fingerprint ----

  method SortIds(ids: seq<int>) returns (q: seq<int>)
    requires forall i, j | 0 <= i < j < |ids| :: ids[i] != ids[j]
    ensures Ascending(q) && forall x :: x in q <==> x in ids
  {
    q := [];
    var i := 0;
    while i < |ids|
      invariant 0 <= i <= |ids|
      invariant Ascending(q) && forall x :: x in q <==> x in ids[..i]
    {
      InsertIdAscending(ids[i], q);
      q := InsertId(ids[i], q);
      assert ids[..i + 1] == ids[..i] + [ids[i]];
      i := i + 1;
    }
    assert ids[..i] == ids;
  }

  method ActiveStateKey(store: PlacementStore) returns (key: string)
    ensures key == KeyOf(Held(store.vms))
  {
    var active := store.Select(Active);
    var staged := store.Select(Staged);
    var ids := active + staged;
    assert forall x :: x in ids <==> x in Held(store.vms);
    assert forall i | 0 <= i < |active| :: active[i] in active;
    assert forall i | 0 <= i < |staged| :: staged[i] in staged;
    var q := SortIds(ids);
    key := "";
    var i := 0;
    while i < |q|
      invariant 0 <= i <= |q|
      invariant key == KeyText(q[..i])
    {
      key := key + Itoa(q[i]) + ",";
      JoinAppend(IdText, q[..i], q[i]);
      assert q[..i + 1] == q[..i] + [q[i]];
      i := i + 1;
    }
    assert q[..i] == q;
    KeyTextIsKeyOf(q, Held(store.vms));
  }
}
