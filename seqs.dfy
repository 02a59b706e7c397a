/** Generic sequence operations behind the JavaScript `reverse`, `filter`, `sort` and `slice` calls. */
module Seqs {

  /** `[...s].reverse()`. */
  function Reverse<T>(s: seq<T>): (r: seq<T>)
    ensures |r| == |s|
    ensures forall i :: 0 <= i < |s| ==> r[i] == s[|s| - 1 - i]
  {
    if s == [] then [] else Reverse(s[1..]) + [s[0]]
  }

  lemma ReverseInvolution<T>(s: seq<T>)
    ensures Reverse(Reverse(s)) == s
  {
    assert forall i :: 0 <= i < |s| ==> Reverse(Reverse(s))[i] == s[i];
  }

  /** A loop over `s` that has seen `j` elements sees one more. */
  lemma TakeSnoc<T>(s: seq<T>, j: nat)
    requires j < |s|
    ensures s[..j + 1] == s[..j] + [s[j]]
    ensures s[..j + 1][..j] == s[..j]
  {
  }

  lemma AppendAssoc<T>(a: seq<T>, b: seq<T>, c: seq<T>)
    ensures a + (b + c) == (a + b) + c
  {
  }

  lemma TakeAll<T>(s: seq<T>)
    ensures s[..|s|] == s
  {
  }

  /** `r` is `s` with some elements dropped and the others kept in their order. */
  ghost predicate IsSubsequence<T>(r: seq<T>, s: seq<T>)
    decreases |s|
  {
    if r == [] then true
    else if s == [] then false
    else (r[|r| - 1] == s[|s| - 1] && IsSubsequence(r[..|r| - 1], s[..|s| - 1]))
         || IsSubsequence(r, s[..|s| - 1])
  }

  /** The two steps by which a filtering loop grows its output: skip an element, or keep it. */
  lemma SubsequenceExtend<T>(r: seq<T>, s: seq<T>, x: T)
    requires IsSubsequence(r, s)
    ensures IsSubsequence(r, s + [x])
    ensures IsSubsequence(r + [x], s + [x])
  {
    assert (s + [x])[..|s|] == s;
    assert (r + [x])[..|r|] == r;
  }

  lemma {:induction false} SubsequenceRefl<T>(s: seq<T>)
    ensures IsSubsequence(s, s)
  {
    if s != [] {
      SubsequenceRefl(s[..|s| - 1]);
    }
  }

  /** `s.filter(y => y !== x)`: every copy of `x` dropped, everything else kept in order. */
  function Without<T(==,!new)>(s: seq<T>, x: T): (r: seq<T>)
    ensures IsSubsequence(r, s)
    ensures x !in r
    ensures forall y :: y != x ==> multiset(r)[y] == multiset(s)[y]
  {
    if s == [] then []
    else
      var front := s[..|s| - 1];
      var y := s[|s| - 1];
      assert s == front + [y];
      var kept := Without(front, x);
      SubsequenceExtend(kept, front, y);
      if y != x then kept + [y] else kept
  }

  /** Dropping an element that is not there changes nothing. */
  lemma {:induction false} WithoutAbsent<T(!new)>(s: seq<T>, x: T)
    requires x !in s
    ensures Without(s, x) == s
  {
    if s != [] {
      var front := s[..|s| - 1];
      assert s == front + [s[|s| - 1]];
      WithoutAbsent(front, x);
    }
  }

  lemma WithoutSingleton<T(!new)>(x: T)
    ensures Without([x], x) == []
  {
    assert [x][..0] == [];
  }

  /** Filtering distributes over concatenation. */
  lemma {:induction false} WithoutAppend<T(!new)>(a: seq<T>, b: seq<T>, x: T)
    ensures Without(a + b, x) == Without(a, x) + Without(b, x)
    decreases |b|
  {
    if b == [] {
      assert a + b == a;
    } else {
      var b', y := b[..|b| - 1], b[|b| - 1];
      var ab := a + b;
      assert ab[..|ab| - 1] == a + b' && ab[|ab| - 1] == y;
      assert b == b' + [y];
      var tail := if y != x then [y] else [];
      assert Without(ab, x) == Without(a + b', x) + tail;
      assert Without(b, x) == Without(b', x) + tail;
      WithoutAppend(a, b', x);
      AppendAssoc(Without(a, x), Without(b', x), tail);
    }
  }

  /** Filtering `x` out of a list that starts with the only `x` drops just that head. */
  lemma WithoutHeadAbsent<T(!new)>(x: T, t: seq<T>)
    requires x !in t
    ensures Without([x] + t, x) == t
  {
    WithoutAppend([x], t, x);
    WithoutSingleton(x);
    WithoutAbsent(t, x);
  }

  ghost predicate SortedBy<T>(s: seq<T>, key: T -> real)
  {
    forall i, j :: 0 <= i < j < |s| ==> key(s[i]) <= key(s[j])
  }

  /** Inserts `x` after every element whose key is at most `key(x)`. */
  function InsertBy<T>(t: seq<T>, x: T, key: T -> real): (r: seq<T>)
    requires SortedBy(t, key)
    ensures |r| == |t| + 1
    ensures SortedBy(r, key)
    ensures forall i :: 0 <= i < |r| ==> r[i] in t || r[i] == x
  {
    if t == [] || key(t[|t| - 1]) <= key(x) then t + [x]
    else
      var last := t[|t| - 1];
      var front := t[..|t| - 1];
      assert t == front + [last];
      InsertBy(front, x, key) + [last]
  }

  /** Insertion adds exactly `x` and loses nothing. */
  lemma {:induction false} InsertByPermutes<T>(t: seq<T>, x: T, key: T -> real)
    requires SortedBy(t, key)
    ensures multiset(InsertBy(t, x, key)) == multiset(t) + multiset{x}
  {
    if t == [] || key(t[|t| - 1]) <= key(x) {
    } else {
      var front := t[..|t| - 1];
      assert t == front + [t[|t| - 1]];
      InsertByPermutes(front, x, key);
    }
  }

  /** `s.sort((a, b) => key(a) - key(b))`: insertion sort, one element at a time from the left. */
  function SortBy<T>(s: seq<T>, key: T -> real): (r: seq<T>)
    ensures |r| == |s|
    ensures SortedBy(r, key)
    ensures multiset(r) == multiset(s)
  {
    if s == [] then []
    else
      assert s == s[..|s| - 1] + [s[|s| - 1]];
      InsertByPermutes(SortBy(s[..|s| - 1], key), s[|s| - 1], key);
      InsertBy(SortBy(s[..|s| - 1], key), s[|s| - 1], key)
  }

  /** The elements of `s` whose key is `v`, in their order in `s`. A sort is stable when it
      keeps this list for every key. */
  function WithKey<T>(s: seq<T>, key: T -> real, v: real): seq<T>
  {
    if s == [] then []
    else WithKey(s[..|s| - 1], key, v) + (if key(s[|s| - 1]) == v then [s[|s| - 1]] else [])
  }

  lemma WithKeySnoc<T>(a: seq<T>, y: T, key: T -> real, v: real)
    ensures WithKey(a + [y], key, v) == WithKey(a, key, v) + (if key(y) == v then [y] else [])
  {
    assert (a + [y])[..|a|] == a;
  }

  lemma {:induction false} WithKeyAppend<T>(a: seq<T>, b: seq<T>, key: T -> real, v: real)
    ensures WithKey(a + b, key, v) == WithKey(a, key, v) + WithKey(b, key, v)
    decreases |b|
  {
    if b == [] {
      assert a + b == a;
    } else {
      var b', y := b[..|b| - 1], b[|b| - 1];
      assert b == b' + [y];
      assert a + b == (a + b') + [y];
      WithKeySnoc(a + b', y, key, v);
      WithKeySnoc(b', y, key, v);
      WithKeyAppend(a, b', key, v);
      AppendAssoc(WithKey(a, key, v), WithKey(b', key, v), if key(y) == v then [y] else []);
    }
  }

  /** A prefix of `t` keeps a prefix of each key's elements. */
  lemma WithKeyPrefix<T>(t: seq<T>, k: nat, key: T -> real, v: real)
    requires k <= |t|
    ensures WithKey(t[..k], key, v) <= WithKey(t, key, v)
  {
    assert t == t[..k] + t[k..];
    WithKeyAppend(t[..k], t[k..], key, v);
  }

  /** Inserting `x` puts it after every element with the same key. */
  lemma {:induction false} InsertByStable<T>(t: seq<T>, x: T, key: T -> real, v: real)
    requires SortedBy(t, key)
    ensures WithKey(InsertBy(t, x, key), key, v) == WithKey(t, key, v) + (if key(x) == v then [x] else [])
  {
    if t == [] || key(t[|t| - 1]) <= key(x) {
      WithKeySnoc(t, x, key, v);
    } else {
      var front, last := t[..|t| - 1], t[|t| - 1];
      assert t == front + [last];
      assert SortedBy(front, key);
      var ins := InsertBy(front, x, key);
      assert InsertBy(t, x, key) == ins + [last];
      var xs: seq<T> := if key(x) == v then [x] else [];
      var ls: seq<T> := if key(last) == v then [last] else [];
      InsertByStable(front, x, key, v);
      assert WithKey(ins, key, v) == WithKey(front, key, v) + xs;
      WithKeySnoc(ins, last, key, v);
      assert WithKey(t, key, v) == WithKey(front, key, v) + ls;
      assert xs + ls == ls + xs by {
        if xs != [] {
          assert ls == [];
        }
      }
      AppendAssoc(WithKey(front, key, v), xs, ls);
      AppendAssoc(WithKey(front, key, v), ls, xs);
    }
  }

  /** The sort is stable, as `Array.prototype.sort` is: elements with equal keys keep their
      order. */
  lemma {:induction false} SortByStable<T>(s: seq<T>, key: T -> real, v: real)
    ensures WithKey(SortBy(s, key), key, v) == WithKey(s, key, v)
  {
    if s != [] {
      var front, y := s[..|s| - 1], s[|s| - 1];
      SortByStable(front, key, v);
      InsertByStable(SortBy(front, key), y, key, v);
    }
  }

  /** After a sort, `slice(0, k)` keeps the `k` elements with the smallest keys: what is left
      out of the original is the rest of the sorted list, and no key there is smaller. */
  lemma SortedPrefixIsSmallest<T>(s: seq<T>, t: seq<T>, k: nat, key: T -> real)
    requires multiset(t) == multiset(s) && SortedBy(t, key) && k <= |t|
    ensures multiset(t[..k]) <= multiset(s)
    ensures forall x, y :: x in t[..k] && y in multiset(s) - multiset(t[..k]) ==> key(x) <= key(y)
  {
    var front, back := t[..k], t[k..];
    assert t == front + back;
    assert multiset(s) == multiset(front) + multiset(back);
    assert multiset(s) - multiset(front) == multiset(back);
    forall x, y | x in front && y in multiset(back)
      ensures key(x) <= key(y)
    {
      var i :| 0 <= i < k && t[i] == x;
      assert y in back;
      var j :| k <= j < |t| && t[j] == y;
    }
  }

  /** `s.sort(byKey).slice(0, n)`: the at most `n` elements with the smallest keys, sorted. No
      element left out has a smaller key than one kept, and those kept with one key are the
      first of that key in `s`, in their order there. */
  function SmallestBy<T>(s: seq<T>, n: nat, key: T -> real): (r: seq<T>)
    ensures |r| == if n <= |s| then n else |s|
    ensures SortedBy(r, key)
    ensures multiset(r) <= multiset(s)
    ensures forall x, y :: x in r && y in multiset(s) - multiset(r) ==> key(x) <= key(y)
    ensures forall v :: WithKey(r, key, v) <= WithKey(s, key, v)
  {
    var sorted := SortBy(s, key);
    var k := if n <= |sorted| then n else |sorted|;
    SortedPrefixIsSmallest(s, sorted, k, key);
    assert forall v :: WithKey(sorted[..k], key, v) <= WithKey(s, key, v) by {
      forall v
        ensures WithKey(sorted[..k], key, v) <= WithKey(s, key, v)
      {
        SortByStable(s, key, v);
        WithKeyPrefix(sorted, k, key, v);
      }
    }
    sorted[..k]
  }
}
