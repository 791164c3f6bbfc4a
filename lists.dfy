/** `Array.prototype.filter` and what the client relies on when it replaces
    a list by a filtered copy: exactly the rejected elements disappear, the
    others stay with their multiplicities, in their original order. */
module Lists {

  function Filter<T>(s: seq<T>, keep: T -> bool): seq<T> {
    if |s| == 0 then []
    else if keep(s[0]) then [s[0]] + Filter(s[1..], keep)
    else Filter(s[1..], keep)
  }

  /** `a` is `b` with some elements left out, the rest in the same order. */
  predicate IsSubsequence<T(==)>(a: seq<T>, b: seq<T>)
    decreases |b|
  {
    |a| <= |b| &&
    (a == [] || (a[0] == b[0] && IsSubsequence(a[1..], b[1..])) || IsSubsequence(a, b[1..]))
  }

  lemma {:induction false} FilterMembers<T>(s: seq<T>, keep: T -> bool)
    ensures forall x :: x in Filter(s, keep) <==> x in s && keep(x)
  {
    if |s| > 0 {
      FilterMembers(s[1..], keep);
      assert s == [s[0]] + s[1..];
    }
  }

  lemma {:induction false} FilterCounts<T>(s: seq<T>, keep: T -> bool)
    ensures forall x :: multiset(Filter(s, keep))[x] == if keep(x) then multiset(s)[x] else 0
  {
    if |s| > 0 {
      FilterCounts(s[1..], keep);
      assert s == [s[0]] + s[1..];
    }
  }

  lemma {:induction false} FilterIsSubsequence<T>(s: seq<T>, keep: T -> bool)
    ensures IsSubsequence(Filter(s, keep), s)
  {
    if |s| > 0 {
      FilterIsSubsequence(s[1..], keep);
      var rest := Filter(s[1..], keep);
      if keep(s[0]) {
        assert ([s[0]] + rest)[1..] == rest;
      }
    }
  }

  /** When nothing is rejected, the list comes back unchanged. */
  lemma {:induction false} FilterKeepsAll<T>(s: seq<T>, keep: T -> bool)
    requires forall i | 0 <= i < |s| :: keep(s[i])
    ensures Filter(s, keep) == s
  {
    if |s| > 0 {
      FilterKeepsAll(s[1..], keep);
      assert [s[0]] + s[1..] == s;
    }
  }

  lemma {:induction false} FilterAppend<T>(a: seq<T>, b: seq<T>, keep: T -> bool)
    ensures Filter(a + b, keep) == Filter(a, keep) + Filter(b, keep)
  {
    if |a| > 0 {
      assert (a + b)[1..] == a[1..] + b;
      FilterAppend(a[1..], b, keep);
    } else {
      assert a + b == b;
    }
  }

  /** `s.filter((x) => key(x) !== k)`: the list without the entries whose
      key is `k`, as the client drops a deleted record by its id. */
  function Without<T, K(==)>(s: seq<T>, key: T -> K, k: K): seq<T> {
    Filter(s, x => key(x) != k)
  }

  /** Removing by key removes exactly the entries with that key: every
      other entry stays, as often as it was there, in its original order. */
  lemma WithoutIsExact<T, K>(s: seq<T>, key: T -> K, k: K)
    ensures forall x :: x in Without(s, key, k) <==> x in s && key(x) != k
    ensures forall x :: key(x) != k ==> multiset(Without(s, key, k))[x] == multiset(s)[x]
    ensures IsSubsequence(Without(s, key, k), s)
  {
    var keep := x => key(x) != k;
    assert Without(s, key, k) == Filter(s, keep);
    FilterMembers(s, keep);
    FilterCounts(s, keep);
    FilterIsSubsequence(s, keep);
  }

  /** Removing a key that no entry carries changes nothing. */
  lemma WithoutAbsent<T, K>(s: seq<T>, key: T -> K, k: K)
    requires forall i | 0 <= i < |s| :: key(s[i]) != k
    ensures Without(s, key, k) == s
  {
    var keep := x => key(x) != k;
    assert Without(s, key, k) == Filter(s, keep);
    FilterKeepsAll(s, keep);
  }
}
