/** The ascending listing of a set of map keys. */
module SortedKeys {
  predicate Sorted(keys: seq<int>) {
    forall i, j :: 0 <= i < j < |keys| ==> keys[i] < keys[j]
  }

  predicate Lists(keys: seq<int>, s: set<int>) {
    Sorted(keys) && (forall i :: 0 <= i < |keys| ==> keys[i] in s) && (forall k :: k in s ==> k in keys)
  }

  lemma Member<T>(s: set<T>) returns (m: T)
    requires s != {}
    ensures m in s
  {
    m :| m in s;
  }

  lemma {:induction false} Least(s: set<int>) returns (m: int)
    requires s != {}
    ensures m in s && forall k :: k in s ==> m <= k
  {
    m := Member(s);
    if s != {m} {
      var least := Least(s - {m});
      assert s == (s - {m}) + {m};
      m := if least < m then least else m;
    }
  }

  method SortKeys(s: set<int>) returns (keys: seq<int>)
    ensures Lists(keys, s)
  {
    keys := [];
    var rest := s;
    while rest != {}
      invariant Sorted(keys) && (forall i :: 0 <= i < |keys| ==> keys[i] in s)
      invariant forall k :: k in s ==> k in keys || k in rest
      invariant forall k :: k in rest ==> k in s
      invariant forall i, r :: 0 <= i < |keys| && r in rest ==> keys[i] < r
      decreases rest
    {
      ghost var least := Least(rest);
      var m :| m in rest && forall k :: k in rest ==> m <= k;
      keys := keys + [m];
      rest := rest - {m};
      assert keys[|keys| - 1] == m;
    }
  }
}
