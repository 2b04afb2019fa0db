/** Addresses, NAT mappings, their order, and the text key that stands for a ruleset. */
module Net {
  import opened Text

  /** A totally ordered address; its text form is a parameter wherever it is needed. */
  datatype Addr = Addr(n: nat)

  datatype Mapping = Mapping(external: Addr, internal: Addr, vmid: int, name: string)

  /** What one mapping contributes to the rendered ruleset. */
  datatype Pair = Pair(external: Addr, internal: Addr)

  function PairOf(m: Mapping): Pair {
    Pair(m.external, m.internal)
  }

  function PairsOf(ms: seq<Mapping>): (ps: seq<Pair>)
    ensures |ps| == |ms| && forall i | 0 <= i < |ms| :: ps[i] == PairOf(ms[i])
  {
    seq(|ms|, i requires 0 <= i < |ms| => PairOf(ms[i]))
  }

  /** The comparison of sortMappings: external, then internal, then VMID. */
  predicate Less(a: Mapping, b: Mapping) {
    if a.external != b.external then a.external.n < b.external.n
    else if a.internal != b.internal then a.internal.n < b.internal.n
    else a.vmid < b.vmid
  }

  predicate PairLeq(a: Pair, b: Pair) {
    a.external.n < b.external.n || (a.external == b.external && a.internal.n <= b.internal.n)
  }

  predicate Sorted(ms: seq<Mapping>) {
    forall i, j | 0 <= i < j < |ms| :: !Less(ms[j], ms[i])
  }

  predicate PairsSorted(ps: seq<Pair>) {
    forall i, j | 0 <= i < j < |ps| :: PairLeq(ps[i], ps[j])
  }

  /** The order is lexicographic: external address, then internal address, then VMID. */
  lemma SortedMeans(ms: seq<Mapping>)
    ensures Sorted(ms) <==> forall i, j | 0 <= i < j < |ms| ::
              || ms[i].external.n < ms[j].external.n
              || (ms[i].external.n == ms[j].external.n &&
                  (ms[i].internal.n < ms[j].internal.n ||
                   (ms[i].internal.n == ms[j].internal.n && ms[i].vmid <= ms[j].vmid)))
  {
  }

  // ---- Sorting ----

  /** Up to position i everything is in order but what is on its way down, now at j. */
  predicate SortedBut(ms: seq<Mapping>, i: int, j: int) {
    forall p, q | 0 <= p < q <= i && q != j && q < |ms| :: !Less(ms[q], ms[p])
  }

  function Swapped<T>(s: seq<T>, j: nat): seq<T>
    requires 0 < j < |s|
  {
    s[j - 1 := s[j]][j := s[j - 1]]
  }

  lemma SwapSorts(ms: seq<Mapping>, i: nat, j: nat)
    requires 0 < j <= i < |ms| && SortedBut(ms, i, j) && Less(ms[j], ms[j - 1])
    ensures SortedBut(Swapped(ms, j), i, j - 1) && multiset(Swapped(ms, j)) == multiset(ms)
  {
  }

  /** Insertion sort in place; the array ends up ordered and keeps every element. */
  method SortMappings(a: array<Mapping>)
    modifies a
    ensures Sorted(a[..])
    ensures multiset(a[..]) == multiset(old(a[..]))
  {
    var i := 0;
    while i < a.Length
      invariant 0 <= i <= a.Length
      invariant Sorted(a[..i])
      invariant multiset(a[..]) == multiset(old(a[..]))
    {
      var j := i;
      while j > 0 && Less(a[j], a[j - 1])
        invariant 0 <= j <= i
        invariant SortedBut(a[..], i, j)
        invariant multiset(a[..]) == multiset(old(a[..]))
      {
        SwapSorts(a[..], i, j);
        ghost var was := a[..];
        a[j - 1], a[j] := a[j], a[j - 1];
        assert a[..] == Swapped(was, j);
        j := j - 1;
      }
      i := i + 1;
    }
    assert a[..a.Length] == a[..];
  }

  lemma HeadAndTail<T>(s: seq<T>)
    requires s != []
    ensures s == [s[0]] + s[1..] && multiset(s[1..]) == multiset(s) - multiset{s[0]}
  {
    assert s == [s[0]] + s[1..];
  }

  /** The least pair of a bag comes first in every sorted list of it. */
  lemma SameHead(ps: seq<Pair>, qs: seq<Pair>)
    requires PairsSorted(ps) && PairsSorted(qs) && multiset(ps) == multiset(qs)
    requires ps != [] && qs != []
    ensures ps[0] == qs[0]
  {
    assert ps[0] in multiset(qs) && qs[0] in multiset(ps);
    var i :| 0 <= i < |qs| && qs[i] == ps[0];
    var j :| 0 <= j < |ps| && ps[j] == qs[0];
  }

  /** A sorted list of pairs is determined by its bag of pairs. */
  lemma {:induction false} SortedPairsUnique(ps: seq<Pair>, qs: seq<Pair>)
    requires PairsSorted(ps) && PairsSorted(qs)
    requires multiset(ps) == multiset(qs)
    ensures ps == qs
  {
    assert |ps| == |multiset(ps)| == |multiset(qs)| == |qs|;
    if ps != [] {
      SameHead(ps, qs);
      HeadAndTail(ps);
      HeadAndTail(qs);
      SortedPairsUnique(ps[1..], qs[1..]);
    }
  }

  lemma SortedGivesSortedPairs(ms: seq<Mapping>)
    requires Sorted(ms)
    ensures PairsSorted(PairsOf(ms))
  {
  }

  function Without<T>(s: seq<T>, k: nat): seq<T>
    requires k < |s|
  {
    s[..k] + s[k + 1..]
  }

  lemma TakenOut<T>(s: seq<T>, k: nat)
    requires k < |s|
    ensures multiset(s) == multiset{s[k]} + multiset(Without(s, k))
    ensures multiset(Without(s, k)) == multiset(s) - multiset{s[k]}
  {
    assert s == s[..k] + ([s[k]] + s[k + 1..]);
  }

  /** Permuting mappings permutes their pairs. */
  lemma {:induction false} PermutedPairs(a: seq<Mapping>, b: seq<Mapping>)
    requires multiset(a) == multiset(b)
    ensures multiset(PairsOf(a)) == multiset(PairsOf(b))
  {
    assert |a| == |multiset(a)| == |multiset(b)| == |b|;
    if a != [] {
      assert a[0] in multiset(b);
      var k :| 0 <= k < |b| && b[k] == a[0];
      TakenOut(a, 0);
      TakenOut(b, k);
      PermutedPairs(Without(a, 0), Without(b, k));
      PairsTakenOut(a, 0);
      PairsTakenOut(b, k);
    }
  }

  lemma PairsTakenOut(a: seq<Mapping>, k: nat)
    requires k < |a|
    ensures multiset(PairsOf(a)) == multiset{PairOf(a[k])} + multiset(PairsOf(Without(a, k)))
  {
    assert PairsOf(Without(a, k)) == Without(PairsOf(a), k);
    TakenOut(PairsOf(a), k);
  }

  function InsertPair(p: Pair, ps: seq<Pair>): (r: seq<Pair>)
    ensures multiset(r) == multiset(ps) + multiset{p}
  {
    if ps == [] then [p]
    else if PairLeq(p, ps[0]) then [p] + ps
    else
      assert ps == [ps[0]] + ps[1..];
      [ps[0]] + InsertPair(p, ps[1..])
  }

  lemma {:induction false} InsertPairSorted(p: Pair, ps: seq<Pair>)
    requires PairsSorted(ps)
    ensures PairsSorted(InsertPair(p, ps))
  {
    if ps != [] && !PairLeq(p, ps[0]) {
      var rest := InsertPair(p, ps[1..]);
      InsertPairSorted(p, ps[1..]);
      forall i | 0 <= i < |rest|
        ensures PairLeq(ps[0], rest[i])
      {
        assert rest[i] in multiset(rest);
        assert rest[i] in multiset(ps[1..]) || rest[i] == p;
      }
    }
  }

  function SortPairs(ps: seq<Pair>): (r: seq<Pair>)
    ensures PairsSorted(r) && multiset(r) == multiset(ps)
  {
    if ps == [] then []
    else
      assert ps == [ps[0]] + ps[1..];
      InsertPairSorted(ps[0], SortPairs(ps[1..]));
      InsertPair(ps[0], SortPairs(ps[1..]))
  }

  /** The ruleset nftables is handed for ms: the pairs in canonical order. */
  function RulesOf(ms: seq<Mapping>): seq<Pair> {
    SortPairs(PairsOf(ms))
  }

  /** How many of the mappings translate external to internal. */
  function Uses(ms: seq<Mapping>, external: Addr, internal: Addr): nat {
    if ms == [] then 0
    else
      var m := ms[|ms| - 1];
      Uses(ms[..|ms| - 1], external, internal) + (if m.external == external && m.internal == internal then 1 else 0)
  }

  lemma {:induction false} PairsUsed(ms: seq<Mapping>, p: Pair)
    ensures multiset(PairsOf(ms))[p] == Uses(ms, p.external, p.internal)
    ensures Uses(ms, p.external, p.internal) > 0 <==>
            exists x :: x in ms && x.external == p.external && x.internal == p.internal
  {
    if ms != [] {
      var front, m := ms[..|ms| - 1], ms[|ms| - 1];
      PairsUsed(front, p);
      assert ms == front + [m];
      assert PairsOf(ms) == PairsOf(front) + [PairOf(m)];
    }
  }

  /** Each rule is there as often as the mappings translate its external address to its internal one. */
  lemma RulesUsed(ms: seq<Mapping>, p: Pair)
    ensures multiset(RulesOf(ms))[p] == Uses(ms, p.external, p.internal)
    ensures p in RulesOf(ms) <==> exists x :: x in ms && x.external == p.external && x.internal == p.internal
  {
    PairsUsed(ms, p);
    assert p in RulesOf(ms) <==> p in multiset(RulesOf(ms));
  }

  /** Sorting any arrangement of ms and projecting to pairs gives the one ruleset of ms. */
  lemma SortedIsRules(ms: seq<Mapping>, sorted: seq<Mapping>)
    requires Sorted(sorted) && multiset(sorted) == multiset(ms)
    ensures PairsOf(sorted) == RulesOf(ms)
  {
    PermutedPairs(sorted, ms);
    SortedGivesSortedPairs(sorted);
    SortedPairsUnique(PairsOf(sorted), RulesOf(ms));
  }

  // ---- The ruleset key ----

  /** Address text is one-to-one and uses neither separator of the key. */
  ghost predicate GoodText(text: Addr -> string) {
    && (forall a :: '>' !in text(a) && ';' !in text(a))
    && (forall a, b :: text(a) == text(b) ==> a == b)
  }

  function RuleText(text: Addr -> string): Pair -> string {
    (p: Pair) => text(p.external) + ">" + text(p.internal) + ";"
  }

  function RulesetKey(text: Addr -> string, ps: seq<Pair>): string {
    Join(RuleText(text), ps)
  }

  lemma RuleTextSelfDelimiting(text: Addr -> string)
    requires GoodText(text)
    ensures SelfDelimiting(RuleText(text))
  {
    var f := RuleText(text);
    forall p: Pair, q: Pair, s: string, t: string | f(p) + s == f(q) + t
      ensures p == q
    {
      var pe, pi, qe, qi := text(p.external), text(p.internal), text(q.external), text(q.internal);
      assert f(p) + s == pe + ['>'] + (pi + [';'] + s);
      assert f(q) + t == qe + ['>'] + (qi + [';'] + t);
      SplitAtFirst(pe, qe, '>', pi + [';'] + s, qi + [';'] + t);
      SplitAtFirst(pi, qi, ';', s, t);
    }
  }

  /** Two rulesets have the same key exactly when they are the same ruleset. */
  lemma RulesetKeyInjective(text: Addr -> string, ps: seq<Pair>, qs: seq<Pair>)
    requires GoodText(text)
    ensures RulesetKey(text, ps) == RulesetKey(text, qs) <==> ps == qs
  {
    if RulesetKey(text, ps) == RulesetKey(text, qs) {
      RuleTextSelfDelimiting(text);
      JoinInjective(RuleText(text), ps, qs);
    }
  }

  /** After sorting, the keys of two mapping lists agree exactly when they install the same bag of rules. */
  lemma KeyIsCanonical(text: Addr -> string, a: seq<Mapping>, b: seq<Mapping>, sa: seq<Mapping>, sb: seq<Mapping>)
    requires GoodText(text)
    requires Sorted(sa) && multiset(sa) == multiset(a)
    requires Sorted(sb) && multiset(sb) == multiset(b)
    ensures RulesetKey(text, PairsOf(sa)) == RulesetKey(text, PairsOf(sb))
       <==> multiset(PairsOf(a)) == multiset(PairsOf(b))
  {
    SortedIsRules(a, sa);
    SortedIsRules(b, sb);
    RulesetKeyInjective(text, RulesOf(a), RulesOf(b));
    if multiset(PairsOf(a)) == multiset(PairsOf(b)) {
      SortedPairsUnique(RulesOf(a), RulesOf(b));
    }
  }

  /** Two lists have the same key exactly when they agree, place by place, on both addresses of each mapping. */
  lemma KeyByPlace(text: Addr -> string, a: seq<Mapping>, b: seq<Mapping>)
    requires GoodText(text)
    ensures RulesetKey(text, PairsOf(a)) == RulesetKey(text, PairsOf(b)) <==>
            |a| == |b| && forall i | 0 <= i < |a| :: a[i].external == b[i].external && a[i].internal == b[i].internal
  {
    RulesetKeyInjective(text, PairsOf(a), PairsOf(b));
    if PairsOf(a) == PairsOf(b) {
      forall i | 0 <= i < |a| ensures a[i].external == b[i].external && a[i].internal == b[i].internal {
        assert PairsOf(a)[i] == PairsOf(b)[i];
      }
    }
  }

  method BuildRulesetKey(text: Addr -> string, ms: seq<Mapping>) returns (key: string)
    ensures key == RulesetKey(text, PairsOf(ms))
  {
    key := "";
    var i := 0;
    while i < |ms|
      invariant 0 <= i <= |ms|
      invariant key == RulesetKey(text, PairsOf(ms[..i]))
    {
      key := key + text(ms[i].external) + ">" + text(ms[i].internal) + ";";
      JoinAppend(RuleText(text), PairsOf(ms[..i]), PairOf(ms[i]));
      assert PairsOf(ms[..i + 1]) == PairsOf(ms[..i]) + [PairOf(ms[i])];
      i := i + 1;
    }
    assert ms[..i] == ms;
  }
}
