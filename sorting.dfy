/**
 * Ordering for `Array.prototype.sort`. Keys are numbers (compared numerically)
 * or strings (compared by character code, as JavaScript's `<` and `>` compare
 * strings); a list is sorted when every earlier element's key comes no later
 * than every later element's key in the chosen direction. One in-place
 * insertion sort over an `array` realises this ordering for every caller; like
 * `Array.prototype.sort`, it is stable.
 */
module Sorting {
  import Seqs

  datatype SortKey = NumKey(x: real) | StrKey(s: string)

  datatype Direction = Asc | Desc

  /** `a <= b` on strings: lexicographic, by character code. */
  predicate StrLe(a: string, b: string) {
    if a == [] then true
    else if b == [] then false
    else if a[0] != b[0] then a[0] < b[0]
    else StrLe(a[1..], b[1..])
  }

  lemma {:induction false} StrLeTotal(a: string, b: string)
    ensures StrLe(a, b) || StrLe(b, a)
  {
    if a != [] && b != [] && a[0] == b[0] {
      StrLeTotal(a[1..], b[1..]);
    }
  }

  lemma {:induction false} StrLeTransitive(a: string, b: string, c: string)
    requires StrLe(a, b) && StrLe(b, c)
    ensures StrLe(a, c)
  {
    if a != [] && b != [] && c != [] && a[0] == b[0] && b[0] == c[0] {
      StrLeTransitive(a[1..], b[1..], c[1..]);
    }
  }

  lemma {:induction false} StrLeAntisymmetric(a: string, b: string)
    requires StrLe(a, b) && StrLe(b, a)
    ensures a == b
  {
    if a != [] && b != [] {
      StrLeAntisymmetric(a[1..], b[1..]);
      assert a == [a[0]] + a[1..] && b == [b[0]] + b[1..];
    }
  }

  /**
   * The order on keys. A number key and a string key are never compared by the
   * source (one sort field yields one kind of key); numbers are put first so that
   * the order is total.
   */
  predicate KeyLe(a: SortKey, b: SortKey) {
    match (a, b)
    case (NumKey(x), NumKey(y)) => x <= y
    case (StrKey(s), StrKey(t)) => StrLe(s, t)
    case (NumKey(_), StrKey(_)) => true
    case (StrKey(_), NumKey(_)) => false
  }

  /** `a` may precede `b` when sorting in direction `dir`. */
  predicate InOrder(a: SortKey, b: SortKey, dir: Direction) {
    if dir == Asc then KeyLe(a, b) else KeyLe(b, a)
  }

  lemma InOrderTotal(a: SortKey, b: SortKey, dir: Direction)
    ensures InOrder(a, b, dir) || InOrder(b, a, dir)
  {
    if a.StrKey? && b.StrKey? {
      StrLeTotal(a.s, b.s);
    }
  }

  lemma InOrderTransitive(a: SortKey, b: SortKey, c: SortKey, dir: Direction)
    requires InOrder(a, b, dir) && InOrder(b, c, dir)
    ensures InOrder(a, c, dir)
  {
    if a.StrKey? && b.StrKey? && c.StrKey? {
      if dir == Asc {
        StrLeTransitive(a.s, b.s, c.s);
      } else {
        StrLeTransitive(c.s, b.s, a.s);
      }
    }
  }

  lemma InOrderAntisymmetric(a: SortKey, b: SortKey, dir: Direction)
    requires InOrder(a, b, dir) && InOrder(b, a, dir)
    ensures a == b
  {
    if a.StrKey? && b.StrKey? {
      StrLeAntisymmetric(a.s, b.s);
    }
  }

  /** Every element's key comes no later than the key of any element after it. */
  ghost predicate SortedBy<T>(s: seq<T>, key: T -> SortKey, dir: Direction) {
    forall i, j :: 0 <= i < j < |s| ==> InOrder(key(s[i]), key(s[j]), dir)
  }

  /** The elements of `s` whose key is `k`, in their order in `s`. */
  function Ties<T>(s: seq<T>, key: T -> SortKey, k: SortKey): seq<T> {
    Seqs.Filter(s, HasKey(key, k))
  }

  function HasKey<T>(key: T -> SortKey, k: SortKey): T -> bool {
    (x: T) => key(x) == k
  }

  /** Elements with equal keys come in the same relative order in `s` and in `t`. */
  ghost predicate SameTies<T>(s: seq<T>, t: seq<T>, key: T -> SortKey) {
    forall k :: Ties(s, key, k) == Ties(t, key, k)
  }

  /**
   * Sorts `a` in place by `key` in direction `dir`: afterwards the array is sorted,
   * holds the same elements as before, and elements with equal keys keep their
   * relative order (`Array.prototype.sort` is stable).
   */
  method SortInPlace<T>(a: array<T>, key: T -> SortKey, dir: Direction)
    modifies a
    ensures SortedBy(a[..], key, dir)
    ensures multiset(a[..]) == multiset(old(a[..]))
    ensures SameTies(a[..], old(a[..]), key)
  {
    var i := 0;
    while i < a.Length
      invariant 0 <= i <= a.Length
      invariant forall p, q :: 0 <= p < q < i ==> InOrder(key(a[p]), key(a[q]), dir)
      invariant multiset(a[..]) == multiset(old(a[..]))
      invariant SameTies(a[..], old(a[..]), key)
    {
      InsertLast(a, i, key, dir);
      i := i + 1;
    }
  }

  /** `s[..i+1]` is sorted except that `s[j]` may not yet follow the elements before it. */
  ghost predicate SortedAround<T>(s: seq<T>, i: nat, j: nat, key: T -> SortKey, dir: Direction)
    requires j <= i < |s|
  {
    && (forall p, q :: 0 <= p < q <= i && p != j && q != j ==> InOrder(key(s[p]), key(s[q]), dir))
    && (forall q :: j < q <= i ==> InOrder(key(s[j]), key(s[q]), dir))
  }

  /** Swapping an out-of-order `s[j-1]` and `s[j]` moves the gap one place left. */
  lemma SwapStep<T>(s: seq<T>, i: nat, j: nat, key: T -> SortKey, dir: Direction)
    requires 0 < j <= i < |s|
    requires SortedAround(s, i, j, key, dir)
    requires !InOrder(key(s[j - 1]), key(s[j]), dir)
    ensures SortedAround(s[j - 1 := s[j]][j := s[j - 1]], i, j - 1, key, dir)
  {
    InOrderTotal(key(s[j - 1]), key(s[j]), dir);
  }

  /** Exchanging two elements keeps the same elements. */
  lemma SwapKeepsMultiset<T>(s: seq<T>, x: nat, y: nat)
    requires x < |s| && y < |s|
    ensures multiset(s[x := s[y]][y := s[x]]) == multiset(s)
  {
  }

  /**
   * Exchanging two neighbours with different keys keeps the order among equal
   * keys; the insertion sort exchanges only such neighbours, which makes it stable.
   */
  lemma SwapKeepsTies<T>(s: seq<T>, j: nat, key: T -> SortKey)
    requires 0 < j < |s|
    requires key(s[j - 1]) != key(s[j])
    ensures SameTies(s[j - 1 := s[j]][j := s[j - 1]], s, key)
  {
    var t := s[j - 1 := s[j]][j := s[j - 1]];
    var front, back := s[..j - 1], s[j + 1..];
    assert s == front + ([s[j - 1], s[j]] + back);
    assert t == front + ([s[j], s[j - 1]] + back);
    forall k
      ensures Ties(t, key, k) == Ties(s, key, k)
    {
      Seqs.SwapInFilter(front, s[j - 1], s[j], back, HasKey(key, k));
    }
  }

  /** One pass of the insertion sort: moves `a[i]` left into the sorted prefix `a[..i]`. */
  method InsertLast<T>(a: array<T>, i: nat, key: T -> SortKey, dir: Direction)
    requires i < a.Length
    requires forall p, q :: 0 <= p < q < i ==> InOrder(key(a[p]), key(a[q]), dir)
    modifies a
    ensures forall p, q :: 0 <= p < q <= i ==> InOrder(key(a[p]), key(a[q]), dir)
    ensures multiset(a[..]) == multiset(old(a[..]))
    ensures SameTies(a[..], old(a[..]), key)
  {
    var j := i;
    while j > 0 && !InOrder(key(a[j - 1]), key(a[j]), dir)
      invariant 0 <= j <= i
      invariant SortedAround(a[..], i, j, key, dir)
      invariant multiset(a[..]) == multiset(old(a[..]))
      invariant SameTies(a[..], old(a[..]), key)
    {
      ghost var before := a[..];
      SwapStep(before, i, j, key, dir);
      SwapKeepsMultiset(before, j - 1, j);
      InOrderTotal(key(before[j]), key(before[j]), dir);
      SwapKeepsTies(before, j, key);
      a[j - 1], a[j] := a[j], a[j - 1];
      assert a[..] == before[j - 1 := before[j]][j := before[j - 1]];
      j := j - 1;
    }
    forall p | 0 <= p < j
      ensures InOrder(key(a[p]), key(a[j]), dir)
    {
      if p < j - 1 {
        InOrderTransitive(key(a[p]), key(a[j - 1]), key(a[j]), dir);
      }
    }
  }

  /** `[...s].sort(...)`: a sorted rearrangement of `s`, leaving `s` itself as it was. */
  method SortedCopy<T>(s: seq<T>, key: T -> SortKey, dir: Direction) returns (r: seq<T>)
    ensures SortedBy(r, key, dir)
    ensures multiset(r) == multiset(s)
    ensures |r| == |s|
  {
    var a := new T[|s|](i requires 0 <= i < |s| => s[i]);
    assert a[..] == s;
    SortInPlace(a, key, dir);
    r := a[..];
    assert |multiset(r)| == |multiset(s)|;
  }

  /** Filtering a sorted list leaves it sorted. */
  lemma {:induction false} FilterKeepsSorted<T>(s: seq<T>, p: T -> bool, key: T -> SortKey, dir: Direction)
    requires SortedBy(s, key, dir)
    ensures SortedBy(Seqs.Filter(s, p), key, dir)
  {
    if s != [] {
      var tail := s[1..];
      assert SortedBy(tail, key, dir) by {
        forall i, j | 0 <= i < j < |tail|
          ensures InOrder(key(tail[i]), key(tail[j]), dir)
        {
          assert tail[i] == s[i + 1] && tail[j] == s[j + 1];
        }
      }
      FilterKeepsSorted(tail, p, key, dir);
      var rest := Seqs.Filter(tail, p);
      if p(s[0]) {
        var r := [s[0]] + rest;
        forall i, j | 0 <= i < j < |r|
          ensures InOrder(key(r[i]), key(r[j]), dir)
        {
          if i == 0 {
            assert r[j] == rest[j - 1] && rest[j - 1] in tail;
            var k :| 0 <= k < |tail| && tail[k] == rest[j - 1];
            assert s[k + 1] == r[j];
          } else {
            assert r[i] == rest[i - 1] && r[j] == rest[j - 1];
          }
        }
      }
    }
  }
}
