/**
 What the NetBox fetch returns, mapping by mapping: which VMID a custom field stands for,
 and which addresses of which pages yield which mappings.
 */
module NetboxResults {
  import opened Options
  import opened Text
  import opened Net
  import opened MappingCache
  import opened NetboxFetch

  // ---- The VMID a field stands for ----

  predicate Zeros(z: string) {
    forall i | 0 <= i < |z| :: z[i] == '0'
  }

  /** Decimal digits of k, with leading zeros, a plus sign and white space around as it may be. */
  ghost predicate Spells(s: string, k: int) {
    exists a: string, sign: string, z: string, b: string {:trigger Spelled(s, k, a, sign, z, b)} ::
      Spelled(s, k, a, sign, z, b)
  }

  predicate Spelled(s: string, k: int, a: string, sign: string, z: string, b: string) {
    Blank(a) && sign in ["", "+"] && Zeros(z) && Blank(b) && s == a + (sign + z + Itoa(k)) + b
  }

  /** A number stands for itself cut down to an integer, a text for the positive 64-bit number it spells. */
  ghost predicate Denotes(f: Field, k: int) {
    match f
    case Number(n) => n > 0.0 && k as real <= n < k as real + 1.0
    case Str(s) => 0 < k <= MAX_INT && Spells(s, k)
    case _ => false
  }

  lemma {:induction false} ZeroIsZeros(s: string)
    requires DigitsValue(s) == Some(0)
    ensures Zeros(s)
  {
    var n := |s| - 1;
    assert s[n] == '0';
    if n > 0 {
      ZeroIsZeros(s[..n]);
      assert forall i | 0 <= i < n :: s[i] == s[..n][i];
    }
  }

  lemma {:induction false} ZerosAreZero(z: string)
    requires Zeros(z) && z != ""
    ensures DigitsValue(z) == Some(0)
  {
    if |z| > 1 {
      ZerosAreZero(z[..|z| - 1]);
    }
  }

  /** Digits that have the value k are its decimal digits after some zeros. */
  lemma {:induction false} ValueIsSpelled(s: string, k: int) returns (z: string)
    requires DigitsValue(s) == Some(k) && k > 0
    ensures Zeros(z) && s == z + Digits(k)
  {
    var n := |s| - 1;
    var d := s[n] as int - '0' as int;
    assert s == s[..n] + [Digit(d)];
    if n == 0 {
      z := "";
    } else if DigitsValue(s[..n]) == Some(0) {
      ZeroIsZeros(s[..n]);
      z := s[..n];
    } else {
      var f := DigitsValue(s[..n]).value;
      assert k / 10 == f && k % 10 == d;
      z := ValueIsSpelled(s[..n], f);
      assert z + Digits(f) + [Digit(d)] == z + Digits(k);
    }
  }

  lemma {:induction false} SpelledHasValue(z: string, k: nat)
    requires Zeros(z)
    ensures DigitsValue(z + Digits(k)) == Some(k)
  {
    var s := z + Digits(k);
    var front := s[..|s| - 1];
    assert s[|s| - 1] == Digit(k % 10);
    if k < 10 {
      assert front == z;
      if z != "" {
        ZerosAreZero(z);
      }
    } else {
      assert front == z + Digits(k / 10);
      SpelledHasValue(z, k / 10);
    }
  }

  lemma AtoiSpells(s: string, k: int) returns (sign: string, z: string)
    requires Atoi(s) == Some(k) && k > 0
    ensures k <= MAX_INT && sign in ["", "+"] && Zeros(z) && s == sign + z + Itoa(k)
  {
    if s[0] == '+' {
      sign := "+";
      z := ValueIsSpelled(s[1..], k);
      assert s == "+" + s[1..];
    } else {
      sign := "";
      assert s[0] != '-';
      z := ValueIsSpelled(s, k);
      assert s == sign + z + Itoa(k);
    }
  }

  lemma PlainIsRead(digits: string, k: int)
    requires 0 < k <= MAX_INT && DigitsValue(digits) == Some(k)
    requires digits != "" && IsDigit(digits[0]) && IsDigit(digits[|digits| - 1])
    ensures Atoi(digits) == Some(k) && Bare(digits)
  {
  }

  lemma SignedIsRead(digits: string, k: int)
    requires 0 < k <= MAX_INT && DigitsValue(digits) == Some(k) && digits != "" && IsDigit(digits[|digits| - 1])
    ensures Atoi("+" + digits) == Some(k) && Bare("+" + digits)
  {
    var s := "+" + digits;
    assert s[0] == '+' && s[1..] == digits && s[|s| - 1] == digits[|digits| - 1];
  }

  lemma SpelledIsRead(sign: string, z: string, k: int)
    requires 0 < k <= MAX_INT && sign in ["", "+"] && Zeros(z)
    ensures Atoi(sign + z + Itoa(k)) == Some(k) && Bare(sign + z + Itoa(k))
  {
    var digits := z + Digits(k);
    SpelledHasValue(z, k);
    DigitEnds(z, k);
    if sign == "" {
      PlainIsRead(digits, k);
      assert "" + z + Itoa(k) == digits;
    } else {
      SignedIsRead(digits, k);
      assert "+" + z + Itoa(k) == "+" + digits;
    }
  }

  lemma DigitEnds(z: string, k: nat)
    requires Zeros(z)
    ensures var s := z + Digits(k); s != "" && IsDigit(s[0]) && IsDigit(s[|s| - 1])
  {
    DigitsAreDigits(k);
  }

  lemma TextDenotes(s: string, k: int)
    requires 0 < k <= MAX_INT
    ensures Atoi(Trim(s)) == Some(k) <==> Spells(s, k)
  {
    if Atoi(Trim(s)) == Some(k) {
      var a, b := TrimTakesOff(s);
      var sign, z := AtoiSpells(Trim(s), k);
      assert Spelled(s, k, a, sign, z, b);
    }
    if a: string, sign: string, z: string, b: string {:trigger Spelled(s, k, a, sign, z, b)} :|
         Spelled(s, k, a, sign, z, b) {
      SpelledIsRead(sign, z, k);
      TrimPadded(a, sign + z + Itoa(k), b);
    }
  }

  /** The VMID of a VM is the one its custom field stands for, and there is none if it stands for nothing. */
  lemma VmidDenotes(vm: NetboxVM, k: int)
    ensures VmidOf(vm) == Some(k) <==> Denotes(vm.vmid, k)
  {
    if vm.vmid.Str? && 0 < k {
      if k <= MAX_INT {
        TextDenotes(vm.vmid.s, k);
      }
    }
  }

  /** So an integer stands for itself, as a number and as text. */
  lemma IntegersAreThemselves(vm: NetboxVM, k: int)
    requires 1 <= k <= MAX_INT && (vm.vmid == Number(k as real) || vm.vmid == Str(Itoa(k)))
    ensures VmidOf(vm) == Some(k)
  {
    VmidDenotes(vm, k);
    if vm.vmid.Str? {
      assert Spelled(vm.vmid.s, k, "", "", "", "") by {
        assert "" + ("" + "" + Itoa(k)) + "" == Itoa(k);
      }
    }
  }

  // ---- Pages ----

  /** The answer i links further on, if every request up to it succeeds. */
  function Follow<T>(r: Reply<T>, i: nat): Option<Reply<T>> {
    if i == 0 then Some(r) else if r.More? then Follow(r.next, i - 1) else None
  }

  ghost predicate OnPage<T(!new)>(r: Reply<T>, i: nat, x: T) {
    var page := Follow(r, i);
    page.Some? && !page.value.Failure? && x in page.value.results
  }

  predicate Ends<T>(r: Reply<T>, i: nat) {
    Follow(r, i).Some? && Follow(r, i).value.Last?
  }

  /** All results are to be had exactly if the links lead to a last page, and are those of all pages on the way. */
  lemma {:induction false} AllPages<T(!new)>(r: Reply<T>)
    ensures AllResults(r).Some? <==> exists i: nat :: Ends(r, i)
    ensures AllResults(r).Some? ==> forall x :: x in AllResults(r).value <==> exists i: nat :: OnPage(r, i, x)
    decreases r
  {
    if r.More? {
      AllPages(r.next);
      if i: nat :| Ends(r, i) {
        assert Ends(r.next, i - 1);
      }
      if i: nat :| Ends(r.next, i) {
        assert Ends(r, i + 1);
      }
      if AllResults(r).Some? {
        forall x ensures x in AllResults(r).value <==> exists i: nat :: OnPage(r, i, x) { MorePages(r, x); }
      }
    } else if r.Last? {
      assert Ends(r, 0);
      forall x ensures x in AllResults(r).value <==> exists i: nat :: OnPage(r, i, x) {
        assert x in r.results ==> OnPage(r, 0, x);
      }
    }
  }

  lemma MorePages<T(!new)>(r: Reply<T>, x: T)
    requires r.More? && AllResults(r).Some?
    requires x in AllResults(r.next).value <==> exists i: nat :: OnPage(r.next, i, x)
    ensures x in AllResults(r).value <==> exists i: nat :: OnPage(r, i, x)
  {
    if x in r.results {
      assert OnPage(r, 0, x);
    }
    if i: nat :| OnPage(r.next, i, x) {
      assert Follow(r, i + 1) == Follow(r.next, i);
      assert OnPage(r, i + 1, x);
    }
    if i: nat :| OnPage(r, i, x) {
      if i > 0 {
        assert Follow(r.next, i - 1) == Follow(r, i);
        assert OnPage(r.next, i - 1, x);
      }
    }
  }

  // ---- Mappings ----

  /** The VMID of a VM: what its own field stands for or, if that is nothing, what NetBox answers for its id. */
  ghost predicate HasVmid(lookup: VmidOracle, vm: NetboxVM, k: int) {
    if exists j :: Denotes(vm.vmid, j) then Denotes(vm.vmid, k) else vm.id > 0 && lookup(vm.id) == Some(k)
  }

  /** The address sits on an interface of a named VM and leads from an outside address to itself. */
  ghost predicate Yields(parse: Parser, lookup: VmidOracle, ip: IPAddress, x: Mapping) {
    && ip.kind == Some("virtualization.vminterface") && ip.vm.Some?
    && ip.vm.value.name != "" && x.name == ip.vm.value.name
    && parse(ip.address) == Some(x.internal) && Parses(parse, ip.outside, x.external)
    && HasVmid(lookup, ip.vm.value, x.vmid)
  }

  lemma HasVmidIs(lookup: VmidOracle, vm: NetboxVM, k: int)
    ensures HasVmid(lookup, vm, k) <==>
            VmidOf(vm) == Some(k) || (VmidOf(vm).None? && vm.id > 0 && lookup(vm.id) == Some(k))
  {
    VmidDenotes(vm, k);
    if VmidOf(vm).Some? {
      VmidDenotes(vm, VmidOf(vm).value);
    }
    if j :| Denotes(vm.vmid, j) {
      VmidDenotes(vm, j);
    }
  }

  lemma NaiveForYields(parse: Parser, lookup: VmidOracle, ip: IPAddress, x: Mapping)
    ensures x in NaiveFor(parse, lookup, ip) <==> Yields(parse, lookup, ip, x)
  {
    if OnVMInterface(ip) {
      HasVmidIs(lookup, ip.vm.value, x.vmid);
      var internal := parse(ip.address);
      if internal.Some? {
        var inline := VmidOf(ip.vm.value);
        var v := if inline.Some? then inline else if ip.vm.value.id > 0 then lookup(ip.vm.value.id) else None;
        if v.Some? {
          EntriesHave(parse, ip.outside, internal.value, v.value, ip.vm.value.name, x);
        }
      }
    }
  }

  lemma {:induction false} NaiveYields(parse: Parser, lookup: VmidOracle, ips: seq<IPAddress>, x: Mapping)
    ensures x in Naive(parse, lookup, ips) <==> exists ip :: ip in ips && Yields(parse, lookup, ip, x)
  {
    if ips != [] {
      var front, ip := ips[..|ips| - 1], ips[|ips| - 1];
      assert ips == front + [ip];
      NaiveYields(parse, lookup, front, x);
      NaiveForYields(parse, lookup, ip, x);
    }
  }

  /** A fetch that succeeds returns a mapping exactly if some address on some page yields it. */
  lemma FetchedYields(parse: Parser, reply: Reply<IPAddress>, server: VMServer, lookup: VmidOracle, x: Mapping)
    requires Honest(server, lookup) && Fetched(parse, reply, server).Some?
    ensures x in Fetched(parse, reply, server).value <==>
            exists i: nat, ip :: OnPage(reply, i, ip) && Yields(parse, lookup, ip, x)
  {
    BatchedIsNaive(parse, reply, server, lookup);
    var ips, r := AllResults(reply).value, Fetched(parse, reply, server).value;
    assert x in r <==> x in multiset(r);
    assert x in Naive(parse, lookup, ips) <==> x in multiset(Naive(parse, lookup, ips));
    NaiveYields(parse, lookup, ips, x);
    AllPages(reply);
    if ip :| ip in ips && Yields(parse, lookup, ip, x) {
      var i: nat :| OnPage(reply, i, ip);
    }
  }
}
