/** Generic sequence helpers shared by every part of the model: the optional
    value, integer clamping, order-preserving filtering, and the stable sort
    that stands for JavaScript's Array.prototype.sort with a numeric comparator. */
module Seqs {

  datatype Option<T> = None | Some(value: T)

  /** Math.max(lo, Math.min(hi, x)) */
  function Clamp(x: int, lo: int, hi: int): (r: int)
    requires lo <= hi
    ensures lo <= r <= hi
    ensures lo <= x <= hi ==> r == x
    ensures x < lo ==> r == lo
    ensures hi < x ==> r == hi
  {
    if x < lo then lo else if x > hi then hi else x
  }

  function MinR(a: real, b: real): (r: real)
    ensures r <= a && r <= b && (r == a || r == b)
  {
    if a <= b then a else b
  }

  function MaxR(a: real, b: real): (r: real)
    ensures r >= a && r >= b && (r == a || r == b)
  {
    if a >= b then a else b
  }

  /** Array.prototype.findIndex: the first position whose element passes `p`. */
  function FindIndex<T>(s: seq<T>, p: T -> bool): (r: Option<nat>)
    ensures r.Some? ==> r.value < |s| && p(s[r.value])
    ensures r.Some? ==> forall j :: 0 <= j < r.value ==> !p(s[j])
    ensures r.None? <==> forall j :: 0 <= j < |s| ==> !p(s[j])
  {
    if s == [] then None
    else if p(s[0]) then Some(0)
    else match FindIndex(s[1..], p)
      case None => None
      case Some(k) => Some(k + 1)
  }

  /** `r` is obtained from `s` by deleting elements, keeping the order of the rest. */
  predicate IsSubseq<T(==)>(r: seq<T>, s: seq<T>)
  {
    if r == [] then true
    else if s == [] then false
    else if r[0] == s[0] then IsSubseq(r[1..], s[1..])
    else IsSubseq(r, s[1..])
  }

  /** Array.prototype.filter */
  function Filter<T>(s: seq<T>, p: T -> bool): (r: seq<T>)
    ensures |r| <= |s|
    ensures forall i :: 0 <= i < |r| ==> p(r[i])
    ensures multiset(r) <= multiset(s)
    ensures forall i :: 0 <= i < |s| && p(s[i]) ==> multiset(r)[s[i]] == multiset(s)[s[i]]
  {
    if s == [] then []
    else
      var rest := Filter(s[1..], p);
      assert s == [s[0]] + s[1..];
      if p(s[0]) then [s[0]] + rest else rest
  }

  /** A filter every element passes keeps the whole sequence. */
  lemma {:induction false} FilterAll<T>(s: seq<T>, p: T -> bool)
    requires forall x :: p(x)
    ensures Filter(s, p) == s
  {
    if s != [] {
      FilterAll(s[1..], p);
      assert s == [s[0]] + s[1..];
    }
  }

  /** Filtering one more element at the end. */
  lemma AppendAssoc<T>(a: seq<T>, b: seq<T>, c: seq<T>)
    ensures a + (b + c) == (a + b) + c
  {
  }

  /** Filtering a non-empty sequence: its head if it passes, then the
      filtered tail. */
  lemma FilterCons<T>(s: seq<T>, p: T -> bool)
    requires s != []
    ensures Filter(s, p) == (if p(s[0]) then [s[0]] else []) + Filter(s[1..], p)
  {
  }

  lemma {:induction false} FilterSnoc<T>(s: seq<T>, x: T, p: T -> bool)
    ensures Filter(s + [x], p) == Filter(s, p) + (if p(x) then [x] else [])
  {
    if s == [] {
      assert s + [x] == [x] && [x][1..] == [];
      FilterCons([x], p);
    } else {
      var t := s[1..];
      var h: seq<T> := if p(s[0]) then [s[0]] else [];
      var last: seq<T> := if p(x) then [x] else [];
      assert (s + [x])[0] == s[0] && (s + [x])[1..] == t + [x];
      FilterCons(s + [x], p);
      FilterCons(s, p);
      FilterSnoc(t, x, p);
      calc {
        Filter(s + [x], p);
        h + Filter(t + [x], p);
        h + (Filter(t, p) + last);
        { AppendAssoc(h, Filter(t, p), last); }
        (h + Filter(t, p)) + last;
        Filter(s, p) + last;
      }
    }
  }

  lemma {:induction false} FilterIdempotent<T>(s: seq<T>, p: T -> bool)
    ensures Filter(Filter(s, p), p) == Filter(s, p)
  {
    if s != [] {
      FilterIdempotent(s[1..], p);
      var rest := Filter(s[1..], p);
      if p(s[0]) {
        assert ([s[0]] + rest)[1..] == rest;
      }
    }
  }

  lemma {:induction false} FilterIsSubseq<T>(s: seq<T>, p: T -> bool)
    ensures IsSubseq(Filter(s, p), s)
  {
    if s != [] {
      FilterIsSubseq(s[1..], p);
      if !p(s[0]) {
        SubseqSkip(Filter(s[1..], p), s[1..], s[0]);
      }
    }
  }

  /** A subsequence of the tail is a subsequence of the whole. */
  lemma {:induction false} SubseqSkip<T>(r: seq<T>, t: seq<T>, x: T)
    requires IsSubseq(r, t)
    ensures IsSubseq(r, [x] + t)
    decreases |t|, 1
  {
    assert ([x] + t)[1..] == t;
    if r != [] && r[0] == x {
      SubseqTail(r, t);
    }
  }

  /** If `r` is a subsequence of `t` then so is `r` without its head. */
  lemma {:induction false} SubseqTail<T>(r: seq<T>, t: seq<T>)
    requires r != [] && IsSubseq(r, t)
    ensures IsSubseq(r[1..], t)
    decreases |t|, 0
  {
    if r[0] != t[0] {
      SubseqTail(r, t[1..]);
    }
    SubseqSkip(r[1..], t[1..], t[0]);
    assert [t[0]] + t[1..] == t;
  }

  lemma {:induction false} SubseqRefl<T>(s: seq<T>)
    ensures IsSubseq(s, s)
  {
    if s != [] {
      SubseqRefl(s[1..]);
    }
  }

  /** A subsequence holds each element at most as often as the original. */
  lemma {:induction false} SubseqMultiset<T>(r: seq<T>, s: seq<T>)
    requires IsSubseq(r, s)
    ensures multiset(r) <= multiset(s)
  {
    if r != [] {
      assert s == [s[0]] + s[1..];
      if r[0] == s[0] {
        SubseqMultiset(r[1..], s[1..]);
        assert r == [r[0]] + r[1..];
      } else {
        SubseqMultiset(r, s[1..]);
      }
    }
  }

  /** Every element of a subsequence occurs in the original. */
  lemma {:induction false} SubseqMembers<T>(r: seq<T>, s: seq<T>)
    requires IsSubseq(r, s)
    ensures forall x :: x in r ==> x in s
  {
    if r != [] && s != [] {
      if r[0] == s[0] {
        SubseqMembers(r[1..], s[1..]);
        assert r == [r[0]] + r[1..];
      } else {
        SubseqMembers(r, s[1..]);
      }
    }
  }

  /** What holds of every element of `s` holds of every element of a part
      of it. */
  lemma PartHolds<T>(r: seq<T>, s: seq<T>, p: T -> bool)
    requires multiset(r) <= multiset(s)
    requires forall i :: 0 <= i < |s| ==> p(s[i])
    ensures forall i :: 0 <= i < |r| ==> p(r[i])
  {
    forall i | 0 <= i < |r| ensures p(r[i]) {
      assert r[i] in multiset(s);
      var k :| 0 <= k < |s| && s[k] == r[i];
    }
  }

  // ---------- stable sort ----------

  /** Non-increasing by `key`. */
  ghost predicate SortedDesc<T>(s: seq<T>, key: T -> real)
  {
    forall i, j :: 0 <= i < j < |s| ==> key(s[i]) >= key(s[j])
  }

  /** The elements of `s` whose key is `k`, in order. */
  function WithKey<T>(s: seq<T>, key: T -> real, k: real): seq<T>
  {
    if s == [] then [] else (if key(s[0]) == k then [s[0]] else []) + WithKey(s[1..], key, k)
  }

  /** Picking the elements of one key distributes over concatenation. */
  lemma {:induction false} WithKeyAppend<T>(a: seq<T>, b: seq<T>, key: T -> real, k: real)
    ensures WithKey(a + b, key, k) == WithKey(a, key, k) + WithKey(b, key, k)
  {
    if a != [] {
      assert (a + b)[0] == a[0] && (a + b)[1..] == a[1..] + b;
      WithKeyAppend(a[1..], b, key, k);
    } else {
      assert a + b == b;
    }
  }

  /** Inserts `x` in front of the first element whose key is not larger. */
  function Insert<T>(x: T, s: seq<T>, key: T -> real): seq<T>
  {
    if s == [] then [x]
    else if key(s[0]) <= key(x) then [x] + s
    else [s[0]] + Insert(x, s[1..], key)
  }

  /** A stable sort by `key`, largest first: the result of Array.prototype.sort
      with the comparator (a, b) => key(b) - key(a). */
  function SortDesc<T>(s: seq<T>, key: T -> real): seq<T>
  {
    if s == [] then [] else Insert(s[0], SortDesc(s[1..], key), key)
  }

  /** Every key in an insertion result is bounded by a bound of the parts. */
  lemma {:induction false} InsertBounded<T>(x: T, s: seq<T>, key: T -> real, b: real)
    requires key(x) <= b
    requires forall i :: 0 <= i < |s| ==> key(s[i]) <= b
    ensures forall i :: 0 <= i < |Insert(x, s, key)| ==> key(Insert(x, s, key)[i]) <= b
  {
    if s != [] && key(s[0]) > key(x) {
      InsertBounded(x, s[1..], key, b);
      var t := Insert(x, s[1..], key);
      forall i | 0 <= i < |[s[0]] + t| ensures key(([s[0]] + t)[i]) <= b {
        if i > 0 {
          assert ([s[0]] + t)[i] == t[i - 1];
        }
      }
    } else if s != [] {
      forall i | 0 <= i < |[x] + s| ensures key(([x] + s)[i]) <= b {
        if i > 0 {
          assert ([x] + s)[i] == s[i - 1];
        }
      }
    }
  }

  lemma {:induction false} InsertMultiset<T>(x: T, s: seq<T>, key: T -> real)
    ensures multiset(Insert(x, s, key)) == multiset(s) + multiset{x}
    ensures |Insert(x, s, key)| == |s| + 1
  {
    if s != [] && key(s[0]) > key(x) {
      InsertMultiset(x, s[1..], key);
      assert s == [s[0]] + s[1..];
    }
  }

  lemma {:induction false} InsertSorted<T>(x: T, s: seq<T>, key: T -> real)
    requires SortedDesc(s, key)
    ensures SortedDesc(Insert(x, s, key), key)
  {
    if s == [] {
    } else if key(s[0]) <= key(x) {
      var r := [x] + s;
      forall i, j | 0 <= i < j < |r| ensures key(r[i]) >= key(r[j]) {
        assert r[j] == s[j - 1];
        if i > 0 {
          assert r[i] == s[i - 1];
        }
      }
    } else {
      var tail := s[1..];
      assert SortedDesc(tail, key) by {
        forall i, j | 0 <= i < j < |tail| ensures key(tail[i]) >= key(tail[j]) {
          assert tail[i] == s[i + 1] && tail[j] == s[j + 1];
        }
      }
      assert forall i :: 0 <= i < |tail| ==> key(tail[i]) <= key(s[0]) by {
        forall i | 0 <= i < |tail| ensures key(tail[i]) <= key(s[0]) {
          assert tail[i] == s[i + 1];
        }
      }
      InsertSorted(x, tail, key);
      InsertBounded(x, tail, key, key(s[0]));
      var t := Insert(x, tail, key);
      var r := [s[0]] + t;
      forall i, j | 0 <= i < j < |r| ensures key(r[i]) >= key(r[j]) {
        assert r[j] == t[j - 1];
        if i > 0 {
          assert r[i] == t[i - 1];
        }
      }
    }
  }

  lemma {:induction false} InsertWithKey<T>(x: T, s: seq<T>, key: T -> real, k: real)
    ensures WithKey(Insert(x, s, key), key, k)
            == (if key(x) == k then [x] else []) + WithKey(s, key, k)
  {
    var here := if key(x) == k then [x] else [];
    if s == [] {
      assert WithKey([x], key, k) == here + WithKey([x][1..], key, k);
      assert [x][1..] == [];
    } else if key(s[0]) <= key(x) {
      assert ([x] + s)[0] == x && ([x] + s)[1..] == s;
    } else {
      var t := Insert(x, s[1..], key);
      var first := if key(s[0]) == k then [s[0]] else [];
      InsertWithKey(x, s[1..], key, k);
      assert ([s[0]] + t)[0] == s[0] && ([s[0]] + t)[1..] == t;
      assert WithKey([s[0]] + t, key, k) == first + (here + WithKey(s[1..], key, k));
      assert WithKey(s, key, k) == first + WithKey(s[1..], key, k);
      assert key(x) == k ==> first == [];
    }
  }

  lemma {:induction false} SortDescProps<T>(s: seq<T>, key: T -> real)
    ensures SortedDesc(SortDesc(s, key), key)
    ensures multiset(SortDesc(s, key)) == multiset(s)
    ensures |SortDesc(s, key)| == |s|
    ensures forall k :: WithKey(SortDesc(s, key), key, k) == WithKey(s, key, k)
  {
    if s != [] {
      SortDescProps(s[1..], key);
      InsertSorted(s[0], SortDesc(s[1..], key), key);
      InsertMultiset(s[0], SortDesc(s[1..], key), key);
      assert s == [s[0]] + s[1..];
      assert multiset(s) == multiset{s[0]} + multiset(s[1..]);
      forall k ensures WithKey(SortDesc(s, key), key, k) == WithKey(s, key, k) {
        InsertWithKey(s[0], SortDesc(s[1..], key), key, k);
        assert WithKey(s, key, k) == (if key(s[0]) == k then [s[0]] else []) + WithKey(s[1..], key, k);
      }
    }
  }

  /** Sorting by a constant key (a comparator that always answers 0) changes nothing. */
  lemma {:induction false} SortDescConstant<T>(s: seq<T>, key: T -> real, c: real)
    requires forall x :: key(x) == c
    ensures SortDesc(s, key) == s
  {
    if s != [] {
      SortDescConstant(s[1..], key, c);
      assert SortDesc(s, key) == Insert(s[0], s[1..], key);
      if s[1..] != [] {
        assert key(s[1..][0]) <= key(s[0]);
        assert Insert(s[0], s[1..], key) == [s[0]] + s[1..];
      }
      assert s == [s[0]] + s[1..];
    }
  }
}
