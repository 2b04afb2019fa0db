/** Optional values and set helpers. */
module Options {
  datatype Option<+T> = None | Some(value: T)

  /** Some member of a set that has one. */
  ghost function Pick<T>(s: set<T>): (x: T)
    requires s != {}
    ensures x in s
  {
    var x :| x in s;
    x
  }

  function Lookup<K, V>(m: map<K, V>, k: K): Option<V> {
    if k in m then Some(m[k]) else None
  }

  /** q lists each member of s once, in some order. */
  ghost predicate Enumerates<T(!new)>(q: seq<T>, s: set<T>) {
    && (forall x :: x in q <==> x in s)
    && (forall i, j | 0 <= i < j < |q| :: q[i] != q[j])
  }

  lemma EnumeratesAdd<T(!new)>(q: seq<T>, s: set<T>, x: T)
    requires Enumerates(q, s) && x !in s
    ensures Enumerates(q + [x], s + {x})
  {
    assert forall i | 0 <= i < |q| :: q[i] in q;
  }

  ghost function Enumeration<T(!new)>(s: set<T>): (q: seq<T>)
    ensures Enumerates(q, s)
    decreases s
  {
    if s == {} then []
    else
      var x := Pick(s);
      EnumeratesAdd(Enumeration(s - {x}), s - {x}, x);
      assert s - {x} + {x} == s;
      Enumeration(s - {x}) + [x]
  }
}
