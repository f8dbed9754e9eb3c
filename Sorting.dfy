/**
 * `Array.prototype.sort` with a comparator. The comparators of the pages are
 * `(a, b) => key(a) - key(b)` and friends; the model turns each into a
 * "less or equal" test `le` and requires it to be a total preorder, which
 * every comparator used by the pages is (see the `...Preorder` lemmas).
 */
module Sorting {
  import opened Sequences

  ghost predicate Total<T(!new)>(le: (T, T) -> bool) {
    forall x, y :: le(x, y) || le(y, x)
  }

  ghost predicate Transitive<T(!new)>(le: (T, T) -> bool) {
    forall x, y, z :: le(x, y) && le(y, z) ==> le(x, z)
  }

  ghost predicate IsTotalPreorder<T(!new)>(le: (T, T) -> bool) {
    Total(le) && Transitive(le)
  }

  predicate SortedBy<T>(s: seq<T>, le: (T, T) -> bool) {
    forall i, j :: 0 <= i < j < |s| ==> le(s[i], s[j])
  }

  /** Ascending order of an integer key, as `(a, b) => key(a) - key(b)`. */
  function KeyAsc<T>(key: T -> int): (T, T) -> bool {
    (x: T, y: T) => key(x) <= key(y)
  }

  /** Descending order of an integer key, as `(a, b) => key(b) - key(a)`. */
  function KeyDesc<T>(key: T -> int): (T, T) -> bool {
    (x: T, y: T) => key(y) <= key(x)
  }

  lemma KeyAscPreorder<T(!new)>(key: T -> int)
    ensures IsTotalPreorder(KeyAsc(key))
  {
  }

  lemma KeyDescPreorder<T(!new)>(key: T -> int)
    ensures IsTotalPreorder(KeyDesc(key))
  {
  }

  /** Code-point lexicographic order on strings, the model of `localeCompare`. */
  predicate LexLe(a: string, b: string)
    decreases |a|
  {
    |a| == 0 || (|b| > 0 && (a[0] < b[0] || (a[0] == b[0] && LexLe(a[1..], b[1..]))))
  }

  lemma {:induction false} LexLeTotal(a: string, b: string)
    ensures LexLe(a, b) || LexLe(b, a)
    decreases |a|
  {
    if |a| > 0 && |b| > 0 && a[0] == b[0] {
      LexLeTotal(a[1..], b[1..]);
    }
  }

  lemma {:induction false} LexLeTrans(a: string, b: string, c: string)
    requires LexLe(a, b) && LexLe(b, c)
    ensures LexLe(a, c)
    decreases |a|
  {
    if |a| > 0 && a[0] == b[0] && b[0] == c[0] {
      LexLeTrans(a[1..], b[1..], c[1..]);
    }
  }

  /** Ascending order of a string key, as `(a, b) => key(a).localeCompare(key(b))`. */
  function StringKeyAsc<T>(key: T -> string): (T, T) -> bool {
    (x: T, y: T) => LexLe(key(x), key(y))
  }

  function StringKeyDesc<T>(key: T -> string): (T, T) -> bool {
    (x: T, y: T) => LexLe(key(y), key(x))
  }

  lemma StringKeyAscPreorder<T(!new)>(key: T -> string)
    ensures IsTotalPreorder(StringKeyAsc(key))
  {
    forall x: T, y: T ensures StringKeyAsc(key)(x, y) || StringKeyAsc(key)(y, x) {
      LexLeTotal(key(x), key(y));
    }
    forall x: T, y: T, z: T | StringKeyAsc(key)(x, y) && StringKeyAsc(key)(y, z)
      ensures StringKeyAsc(key)(x, z)
    {
      LexLeTrans(key(x), key(y), key(z));
    }
  }

  lemma StringKeyDescPreorder<T(!new)>(key: T -> string)
    ensures IsTotalPreorder(StringKeyDesc(key))
  {
    forall x: T, y: T ensures StringKeyDesc(key)(x, y) || StringKeyDesc(key)(y, x) {
      LexLeTotal(key(x), key(y));
    }
    forall x: T, y: T, z: T | StringKeyDesc(key)(x, y) && StringKeyDesc(key)(y, z)
      ensures StringKeyDesc(key)(x, z)
    {
      LexLeTrans(key(z), key(y), key(x));
    }
  }

  /** The comparator `() => 0` of a `default:` branch: every order is sorted. */
  function Unordered<T>(): (T, T) -> bool {
    (x: T, y: T) => true
  }

  lemma UnorderedPreorder<T(!new)>()
    ensures IsTotalPreorder(Unordered<T>())
  {
  }

  /** Sorting with the always-equal comparator keeps the list as it is. */
  lemma {:induction false} SortUnorderedKeeps<T(!new)>(s: seq<T>)
    ensures SortSeq(s, Unordered<T>()) == s
    decreases |s|
  {
    if |s| > 0 {
      SortUnorderedKeeps(s[1..]);
      if |s[1..]| > 0 {
        assert Insert(s[0], s[1..], Unordered<T>()) == [s[0]] + s[1..];
      }
      assert [s[0]] + s[1..] == s;
    }
  }

  /** Insert `x` before the first element it is `le` to. */
  function Insert<T(!new)>(x: T, s: seq<T>, le: (T, T) -> bool): (r: seq<T>)
    requires IsTotalPreorder(le)
    requires SortedBy(s, le)
    ensures SortedBy(r, le)
    ensures multiset(r) == multiset(s) + multiset{x}
    ensures |r| == |s| + 1
    decreases |s|
  {
    if |s| == 0 then [x]
    else if le(x, s[0]) then [x] + s
    else
      var rest := Insert(x, s[1..], le);
      assert s == [s[0]] + s[1..];
      assert forall i :: 0 <= i < |rest| ==> le(s[0], rest[i]) by {
        forall i | 0 <= i < |rest| ensures le(s[0], rest[i]) {
          assert rest[i] in multiset(rest);
          assert rest[i] == x || rest[i] in multiset(s[1..]);
        }
      }
      [s[0]] + rest
  }

  /** A functional insertion sort: the order `Array.prototype.sort` establishes. */
  function SortSeq<T(!new)>(s: seq<T>, le: (T, T) -> bool): (r: seq<T>)
    requires IsTotalPreorder(le)
    ensures SortedBy(r, le)
    ensures multiset(r) == multiset(s)
    ensures |r| == |s|
    decreases |s|
  {
    if |s| == 0 then []
    else
      assert s == [s[0]] + s[1..];
      Insert(s[0], SortSeq(s[1..], le), le)
  }

  /**
   * `[...s].sort((a, b) => key(b) - key(a)).slice(0, n)`: the `n` entries with
   * the largest key, largest first.
   */
  function TopByKey<T(!new)>(s: seq<T>, key: T -> int, n: nat): (r: seq<T>)
    ensures |r| == if |s| <= n then |s| else n
    ensures forall i, j :: 0 <= i < j < |r| ==> key(r[j]) <= key(r[i])
    ensures multiset(r) <= multiset(s)
  {
    KeyDescPreorder(key);
    var sorted := SortSeq(s, KeyDesc(key));
    var r := Take(sorted, n);
    assert sorted == r + sorted[|r|..];
    assert multiset(sorted) == multiset(r) + multiset(sorted[|r|..]);
    forall i, j | 0 <= i < j < |r| ensures key(r[j]) <= key(r[i]) {
      assert KeyDesc(key)(sorted[i], sorted[j]);
    }
    r
  }

  /** Nothing `TopByKey` leaves out has a larger key than anything it keeps. */
  lemma TopByKeyLeftovers<T(!new)>(s: seq<T>, key: T -> int, n: nat)
    ensures forall x :: x in multiset(s) - multiset(TopByKey(s, key, n)) ==>
      forall i :: 0 <= i < |TopByKey(s, key, n)| ==> key(x) <= key(TopByKey(s, key, n)[i])
  {
    KeyDescPreorder(key);
    var sorted := SortSeq(s, KeyDesc(key));
    var r := TopByKey(s, key, n);
    var k := |r|;
    assert r == sorted[..k];
    assert sorted == r + sorted[k..];
    assert multiset(sorted) == multiset(r) + multiset(sorted[k..]);
    forall x | x in multiset(s) - multiset(r) ensures forall i :: 0 <= i < |r| ==> key(x) <= key(r[i]) {
      assert x in multiset(sorted[k..]);
      var j :| 0 <= j < |sorted[k..]| && sorted[k..][j] == x;
      forall i | 0 <= i < |r| ensures key(x) <= key(r[i]) {
        assert KeyDesc(key)(sorted[i], sorted[k + j]);
      }
    }
  }

  /** Positions `0..n` are in order except for pairs involving the hole `j`. */
  ghost predicate SortedExcept<T>(s: seq<T>, n: int, j: int, le: (T, T) -> bool)
    requires 0 <= n < |s|
  {
    forall k, l :: 0 <= k < l <= n && k != j && l != j ==> le(s[k], s[l])
  }

  lemma HoleStart<T>(s: seq<T>, i: int, le: (T, T) -> bool)
    requires 0 <= i < |s|
    requires SortedBy(s[..i], le)
    ensures SortedExcept(s, i, i, le)
  {
    forall k, l | 0 <= k < l <= i && k != i && l != i ensures le(s[k], s[l]) {
      assert s[k] == s[..i][k] && s[l] == s[..i][l];
    }
  }

  /** One swap moves the hole one place left and keeps both loop facts. */
  lemma HoleStep<T(!new)>(s: seq<T>, t: seq<T>, i: int, j: int, le: (T, T) -> bool)
    requires IsTotalPreorder(le)
    requires 0 < j <= i < |s|
    requires SortedExcept(s, i, j, le)
    requires forall l :: j < l <= i ==> le(s[j], s[l])
    requires !le(s[j - 1], s[j])
    requires t == s[j - 1 := s[j]][j := s[j - 1]]
    ensures SortedExcept(t, i, j - 1, le)
    ensures forall l :: j - 1 < l <= i ==> le(t[j - 1], t[l])
  {
    assert le(s[j], s[j - 1]);
    forall l | j - 1 < l <= i ensures le(t[j - 1], t[l]) {
      if l > j {
        assert le(s[j], s[l]);
      }
    }
  }

  /** When the hole has no larger left neighbour, positions `0..i` are sorted. */
  lemma HoleDone<T(!new)>(s: seq<T>, i: int, j: int, le: (T, T) -> bool)
    requires IsTotalPreorder(le)
    requires 0 <= j <= i < |s|
    requires SortedExcept(s, i, j, le)
    requires forall l :: j < l <= i ==> le(s[j], s[l])
    requires j == 0 || le(s[j - 1], s[j])
    ensures SortedBy(s[..i + 1], le)
  {
    forall k, l | 0 <= k < l <= i ensures le(s[k], s[l]) {
      if l == j && k < j - 1 {
        assert le(s[k], s[j - 1]);
      }
    }
  }

  /** `arr.sort(cmp)` on an array: an insertion sort by adjacent swaps. */
  method SortInPlace<T(!new)>(a: array<T>, le: (T, T) -> bool)
    requires IsTotalPreorder(le)
    modifies a
    ensures SortedBy(a[..], le)
    ensures multiset(a[..]) == multiset(old(a[..]))
  {
    var i := 0;
    while i < a.Length
      invariant 0 <= i <= a.Length
      invariant SortedBy(a[..i], le)
      invariant multiset(a[..]) == multiset(old(a[..]))
    {
      SinkLast(a, i, le);
      i := i + 1;
    }
    assert a[..a.Length] == a[..];
  }

  /** One insertion step: `a[i]` is swapped leftwards until the first `i + 1` places are in order. */
  method SinkLast<T(!new)>(a: array<T>, i: int, le: (T, T) -> bool)
    requires IsTotalPreorder(le)
    requires 0 <= i < a.Length
    requires SortedBy(a[..i], le)
    modifies a
    ensures SortedBy(a[..i + 1], le)
    ensures multiset(a[..]) == multiset(old(a[..]))
  {
    HoleStart(a[..], i, le);
    var j := i;
    while j > 0 && !le(a[j - 1], a[j])
      invariant 0 <= j <= i
      invariant SortedExcept(a[..], i, j, le)
      invariant forall l :: j < l <= i ==> le(a[j], a[l])
      invariant multiset(a[..]) == multiset(old(a[..]))
    {
      ghost var s := a[..];
      a[j - 1], a[j] := a[j], a[j - 1];
      assert a[..] == s[j - 1 := s[j]][j := s[j - 1]];
      HoleStep(s, a[..], i, j, le);
      j := j - 1;
    }
    HoleDone(a[..], i, j, le);
  }

  /** `[...s].sort(cmp)`: the list copied into a fresh array and sorted there. */
  method SortedCopy<T(!new)>(s: seq<T>, le: (T, T) -> bool) returns (r: seq<T>)
    requires IsTotalPreorder(le)
    ensures SortedBy(r, le)
    ensures multiset(r) == multiset(s)
  {
    var a := new T[|s|](i requires 0 <= i < |s| => s[i]);
    assert a[..] == s;
    SortInPlace(a, le);
    r := a[..];
  }
}
