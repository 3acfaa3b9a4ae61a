/** Sequence facts shared by the list-backed registries (`ArrayList`, `CopyOnWriteArrayList`)
    and by the models of hash-map iteration, whose order Java leaves unspecified. */
module Seqs {

  /** No element occurs twice. */
  predicate NoDups<T(==)>(s: seq<T>)
  {
    forall i, j :: 0 <= i < j < |s| ==> s[i] != s[j]
  }

  /** `s` with every element of `r` filtered out, order kept. */
  function Without<T(==,!new)>(s: seq<T>, r: set<T>): (t: seq<T>)
    ensures forall x {:trigger x in t} :: x in t <==> x in s && x !in r
    ensures |t| <= |s|
  {
    if s == [] then [] else (if s[0] in r then [] else [s[0]]) + Without(s[1..], r)
  }

  lemma {:induction false} WithoutWithout<T(!new)>(s: seq<T>, r1: set<T>, r2: set<T>)
    ensures Without(Without(s, r1), r2) == Without(s, r1 + r2)
  {
    if s != [] {
      WithoutWithout(s[1..], r1, r2);
      var w := Without(s, r1);
      if s[0] in r1 {
        assert w == Without(s[1..], r1);
      } else {
        assert w == [s[0]] + Without(s[1..], r1);
        assert w[1..] == Without(s[1..], r1);
      }
    }
  }

  /** Removing nothing that occurs in `s` leaves `s` as it is. */
  lemma {:induction false} WithoutDisjoint<T(!new)>(s: seq<T>, r: set<T>)
    requires forall x :: x in r ==> x !in s
    ensures Without(s, r) == s
  {
    if s != [] {
      WithoutDisjoint(s[1..], r);
    }
  }

  /** Only the members of `r` that occur in `s` matter. */
  lemma {:induction false} WithoutSameOnSeq<T(!new)>(s: seq<T>, r1: set<T>, r2: set<T>)
    requires forall x :: x in s ==> (x in r1 <==> x in r2)
    ensures Without(s, r1) == Without(s, r2)
  {
    if s != [] {
      WithoutSameOnSeq(s[1..], r1, r2);
    }
  }

  lemma {:induction false} WithoutNoDups<T(!new)>(s: seq<T>, r: set<T>)
    requires NoDups(s)
    ensures NoDups(Without(s, r))
  {
    if s != [] {
      WithoutNoDups(s[1..], r);
      var t := Without(s[1..], r);
      assert s[0] !in s[1..];
      assert s[0] !in t;
      var w := (if s[0] in r then [] else [s[0]]) + t;
      forall i, j | 0 <= i < j < |w| ensures w[i] != w[j] {
        if s[0] !in r && i == 0 {
          assert w[j] == t[j - 1];
        }
      }
    }
  }

  /** `List.remove(Object)`: drop the first occurrence of `x`, if any. */
  function RemoveFirst<T(==)>(s: seq<T>, x: T): (t: seq<T>)
    ensures x in s ==> |t| == |s| - 1
    ensures x !in s ==> t == s
    ensures forall y :: y in t ==> y in s
  {
    if s == [] then [] else if s[0] == x then s[1..] else [s[0]] + RemoveFirst(s[1..], x)
  }

  /** On a list without duplicates, removing the first occurrence removes every occurrence. */
  lemma {:induction false} RemoveFirstIsWithout<T(!new)>(s: seq<T>, x: T)
    requires NoDups(s)
    ensures RemoveFirst(s, x) == Without(s, {x})
  {
    if s != [] {
      if s[0] == x {
        assert x !in s[1..];
        WithoutDisjoint(s[1..], {x});
      } else {
        RemoveFirstIsWithout(s[1..], x);
      }
    }
  }

  /** `order` lists the members of `keys`, each exactly once: one possible iteration order
      of a hash map or hash set with key set `keys`. */
  ghost predicate IsOrderingOf<T(!new)>(order: seq<T>, keys: set<T>)
  {
    NoDups(order) && forall x :: x in order <==> x in keys
  }

  lemma {:induction false} OrderingLength<T(!new)>(order: seq<T>, keys: set<T>)
    requires IsOrderingOf(order, keys)
    ensures |order| == |keys|
  {
    if order != [] {
      var x := order[0];
      assert x !in order[1..];
      forall y ensures y in order[1..] <==> y in keys - {x} {
        if y in order[1..] {
          var k :| 0 <= k < |order[1..]| && order[1..][k] == y;
          assert order[k + 1] == y;
        }
        if y in keys - {x} {
          var k :| 0 <= k < |order| && order[k] == y;
          assert k != 0;
          assert order[1..][k - 1] == y;
        }
      }
      OrderingLength(order[1..], keys - {x});
    } else {
      assert keys == {};
    }
  }

  /** Extending an ordering of the keys seen so far by one unseen key. */
  lemma OrderingExtend<T(!new)>(order: seq<T>, seen: set<T>, x: T)
    requires IsOrderingOf(order, seen) && x !in seen
    ensures IsOrderingOf(order + [x], seen + {x})
  {
    var o := order + [x];
    forall i, j | 0 <= i < j < |o| ensures o[i] != o[j] {
      if j == |order| {
        assert o[i] == order[i];
        assert order[i] in seen;
      }
    }
  }
  /** The members of `s`. */
  function Elems<T(!new)>(s: seq<T>): set<T>
  {
    set x | x in s
  }

  /** Growing a prefix by one element adds that element to its set. */
  lemma ElemsPrefixStep<T(!new)>(s: seq<T>, i: int)
    requires 0 <= i < |s|
    ensures Elems(s[..i + 1]) == Elems(s[..i]) + {s[i]}
    ensures s[i] in Elems(s)
  {
    assert s[..i + 1] == s[..i] + [s[i]];
  }

  /** An element of a list without duplicates occurs neither before nor after its index. */
  lemma NoDupsAt<T>(s: seq<T>, i: int)
    requires NoDups(s) && 0 <= i < |s|
    ensures s[i] !in s[..i] && s[i] !in s[i + 1..]
  {
    assert forall k :: 0 <= k < i ==> s[..i][k] == s[k];
    var after := s[i + 1..];
    assert forall k :: 0 <= k < |after| ==> after[k] == s[i + 1 + k];
  }

  /** `s` filtered down to the members of `keep`, order kept. */
  function Keep<T(==,!new)>(s: seq<T>, keep: set<T>): (t: seq<T>)
    ensures forall x {:trigger x in t} :: x in t <==> x in s && x in keep
    ensures |t| <= |s|
  {
    if s == [] then [] else (if s[0] in keep then [s[0]] else []) + Keep(s[1..], keep)
  }

  lemma {:induction false} KeepAppend<T(!new)>(s: seq<T>, x: T, keep: set<T>)
    ensures Keep(s + [x], keep) == Keep(s, keep) + (if x in keep then [x] else [])
  {
    if s == [] {
      assert s + [x] == [x];
      assert [x][1..] == [];
    } else {
      var head := if s[0] in keep then [s[0]] else [];
      var last := if x in keep then [x] else [];
      assert (s + [x])[0] == s[0];
      assert (s + [x])[1..] == s[1..] + [x];
      KeepAppend(s[1..], x, keep);
      assert Keep(s + [x], keep) == head + (Keep(s[1..], keep) + last);
      assert Keep(s, keep) == head + Keep(s[1..], keep);
    }
  }

  lemma {:induction false} KeepNoDups<T(!new)>(s: seq<T>, keep: set<T>)
    requires NoDups(s)
    ensures NoDups(Keep(s, keep))
  {
    if s != [] {
      KeepNoDups(s[1..], keep);
      var t := Keep(s[1..], keep);
      assert s[0] !in s[1..];
      assert s[0] !in t;
      var w := (if s[0] in keep then [s[0]] else []) + t;
      forall i, j | 0 <= i < j < |w| ensures w[i] != w[j] {
        if s[0] in keep && i == 0 {
          assert w[j] == t[j - 1];
        }
      }
    }
  }

  /** Filtering by a set that meets none of the elements leaves nothing. */
  lemma {:induction false} KeepNone<T(!new)>(s: seq<T>, keep: set<T>)
    requires forall x :: x in s ==> x !in keep
    ensures Keep(s, keep) == []
  {
    if s != [] {
      KeepNone(s[1..], keep);
    }
  }

  /** Filtering and removing commute. */
  lemma {:induction false} KeepWithout<T(!new)>(s: seq<T>, r: set<T>, keep: set<T>)
    ensures Keep(Without(s, r), keep) == Without(Keep(s, keep), r)
  {
    if s != [] {
      KeepWithout(s[1..], r, keep);
      var x := s[0];
      var rest := Without(s[1..], r);
      if x in r {
        assert Without(s, r) == rest;
        if x in keep {
          assert Keep(s, keep) == [x] + Keep(s[1..], keep);
          assert ([x] + Keep(s[1..], keep))[1..] == Keep(s[1..], keep);
        } else {
          assert Keep(s, keep) == Keep(s[1..], keep);
        }
      } else {
        assert Without(s, r) == [x] + rest;
        assert ([x] + rest)[1..] == rest;
        if x in keep {
          assert Keep(s, keep) == [x] + Keep(s[1..], keep);
          assert ([x] + Keep(s[1..], keep))[1..] == Keep(s[1..], keep);
        } else {
          assert Keep(s, keep) == Keep(s[1..], keep);
        }
      }
    }
  }

  /** Only the members of `keep` that occur in `s` matter. */
  lemma {:induction false} KeepSameOnSeq<T(!new)>(s: seq<T>, k1: set<T>, k2: set<T>)
    requires forall x :: x in s ==> (x in k1 <==> x in k2)
    ensures Keep(s, k1) == Keep(s, k2)
  {
    if s != [] {
      KeepSameOnSeq(s[1..], k1, k2);
    }
  }

  /** Removing the first `k` members of a list without duplicates leaves its suffix. */
  lemma {:induction false} WithoutPrefix<T(!new)>(s: seq<T>, k: nat)
    requires NoDups(s) && k <= |s|
    ensures Without(s, Elems(s[..k])) == s[k..]
  {
    if k == 0 {
      WithoutDisjoint(s, Elems(s[..0]));
    } else {
      var e := Elems(s[..k]);
      var tail := s[1..];
      assert s[0] in e;
      assert s[0] !in tail;
      assert NoDups(tail);
      assert tail[..k - 1] == s[1..k];
      forall x | x in tail ensures x in e <==> x in Elems(tail[..k - 1]) {
        if x in e {
          var i :| 0 <= i < k && s[i] == x;
          assert i != 0;
          assert tail[i - 1] == x;
        }
      }
      WithoutSameOnSeq(tail, e, Elems(tail[..k - 1]));
      WithoutPrefix(tail, k - 1);
      assert tail[k - 1..] == s[k..];
    }
  }

  /** Removing a present key shrinks a map by one. */
  lemma MapRemoveCard<K, V>(m: map<K, V>, k: K)
    requires k in m
    ensures |m - {k}| == |m| - 1
  {
    assert (m - {k}).Keys == m.Keys - {k};
    assert |m.Keys - {k}| == |m.Keys| - 1;
  }

  /** A map whose keys are among another's has no more entries. */
  lemma SubmapCard<K, V>(a: map<K, V>, b: map<K, V>)
    requires a.Keys <= b.Keys
    ensures |a| <= |b|
  {
    assert |a.Keys| == |a| && |b.Keys| == |b|;
    assert b.Keys == a.Keys + (b.Keys - a.Keys);
  }

  /** Taking one more key out of a map whose remaining keys do or do not include it. */
  lemma SubtractOneMore<K, V>(m: map<K, V>, s: set<K>, k: K)
    ensures k !in m - s ==> m - s == m - (s + {k})
    ensures k in m - s ==> (m - s) - {k} == m - (s + {k})
  {
    if k !in m - s {
      forall x | x in m - s ensures x in m - (s + {k}) {
      }
    }
  }

  /** Appending an element not yet present keeps a list free of duplicates. */
  lemma NoDupsSnoc<T>(s: seq<T>, x: T)
    requires NoDups(s) && x !in s
    ensures NoDups(s + [x])
  {
    assert forall i :: 0 <= i < |s| ==> (s + [x])[i] == s[i];
  }

  /** Taking out `r` and then the rest of a larger `e` is taking out `e`. */
  lemma SubtractInTwo<K, V>(m: map<K, V>, r: set<K>, e: set<K>)
    requires r <= e
    ensures (m - r) - (e - r) == m - e
  {
  }

  lemma AppendAssoc<T>(a: seq<T>, b: seq<T>, c: seq<T>)
    ensures a + b + c == a + (b + c)
  {
  }

  /** A prefix one longer is the prefix and the next element. */
  lemma TakeSnoc<T>(s: seq<T>, i: int)
    requires 0 <= i < |s|
    ensures s[..i + 1] == s[..i] + [s[i]]
  {
  }
}
