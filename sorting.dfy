/** The ordering the pages sort by and the two sorts they use: JavaScript's
    `Array.prototype.sort` with a comparator that returns -1, 1 or 0 from
    `<` and `>` on a numeric or string sort key.  `SortInPlace` is the
    in-place sort of an array; `Sorted` is the stable sort as a value. */
module Sorting {
  import opened Text
  import opened Collections

  /** A sort key: a number (a time in ms, a severity rank) or a string. */
  datatype Key = Num(n: int) | Str(s: string)

  /** `a < b` on keys.  The source never compares a number with a string;
      numbers are put first only so that the order is total. */
  predicate KeyLess(a: Key, b: Key) {
    match (a, b)
    case (Num(x), Num(y)) => x < y
    case (Str(x), Str(y)) => LexLess(x, y)
    case (Num(_), Str(_)) => true
    case (Str(_), Num(_)) => false
  }

  lemma KeyLessIrreflexive(a: Key)
    ensures !KeyLess(a, a)
  {
    if a.Str? { LexLessIrreflexive(a.s); }
  }

  lemma KeyLessTransitive(a: Key, b: Key, c: Key)
    requires KeyLess(a, b) && KeyLess(b, c)
    ensures KeyLess(a, c)
  {
    if a.Str? && b.Str? && c.Str? { LexLessTransitive(a.s, b.s, c.s); }
  }

  lemma KeyLessTotal(a: Key, b: Key)
    ensures KeyLess(a, b) || KeyLess(b, a) || a == b
  {
    if a.Str? && b.Str? { LexLessTotal(a.s, b.s); }
  }

  /** `x` may stand before `y`: keys non-decreasing (`"asc"`) or
      non-increasing (any other order). */
  predicate InOrder<T>(x: T, y: T, key: T -> Key, descending: bool) {
    if descending then !KeyLess(key(x), key(y)) else !KeyLess(key(y), key(x))
  }

  /** Every pair stands in order. */
  predicate SortedBy<T>(s: seq<T>, key: T -> Key, descending: bool) {
    forall i, j :: 0 <= i < j < |s| ==> InOrder(s[i], s[j], key, descending)
  }

  lemma InOrderTransitive<T>(x: T, y: T, z: T, key: T -> Key, descending: bool)
    requires InOrder(x, y, key, descending) && InOrder(y, z, key, descending)
    ensures InOrder(x, z, key, descending)
  {
    var kx, ky, kz := key(x), key(y), key(z);
    KeyLessTotal(kx, ky);
    KeyLessTotal(ky, kz);
    KeyLessTotal(kx, kz);
    if descending {
      if KeyLess(kx, kz) {
        if kx == ky { } else if ky == kz { } else {
          KeyLessTransitive(kz, ky, kx);
          KeyLessIrreflexive(kx);
          KeyLessTransitive(kx, kz, kx);
        }
      }
    } else {
      if KeyLess(kz, kx) {
        if kx == ky { } else if ky == kz { } else {
          KeyLessTransitive(kx, ky, kz);
          KeyLessIrreflexive(kx);
          KeyLessTransitive(kx, kz, kx);
        }
      }
    }
  }

  /** Two elements out of order stand in order the other way round. */
  lemma InOrderTotal<T>(x: T, y: T, key: T -> Key, descending: bool)
    ensures !InOrder(x, y, key, descending) ==> InOrder(y, x, key, descending)
  {
    KeyLessTotal(key(x), key(y));
    if KeyLess(key(x), key(y)) && KeyLess(key(y), key(x)) {
      KeyLessTransitive(key(x), key(y), key(x));
      KeyLessIrreflexive(key(x));
    }
  }

  // ---------------------------------------------------------------- stability

  /** The test "has key `k`". */
  function HasKey<T, K(==,!new)>(key: T -> K, k: K): T -> bool {
    x => key(x) == k
  }

  /** The elements of `s` whose key is `k`, in their order in `s`. */
  function Ties<T(==,!new), K(==,!new)>(s: seq<T>, key: T -> K, k: K): seq<T> {
    Filter(s, HasKey(key, k))
  }

  /** `r` holds the elements of every key in the order `s` holds them: what
      a stable sort promises besides sortedness. */
  ghost predicate KeepsTies<T(!new), K(!new)>(s: seq<T>, r: seq<T>, key: T -> K) {
    forall k :: Ties(r, key, k) == Ties(s, key, k)
  }

  /** Exchanging two neighbours that do not both pass `p` leaves the filter
      by `p` as it was. */
  lemma FilterSwap<T(!new)>(s: seq<T>, j: nat, p: T -> bool)
    requires 0 < j < |s| && !(p(s[j - 1]) && p(s[j]))
    ensures Filter(s[j - 1 := s[j]][j := s[j - 1]], p) == Filter(s, p)
  {
    var t := s[j - 1 := s[j]][j := s[j - 1]];
    var pre, post := s[..j - 1], s[j + 1..];
    assert s == pre + [s[j - 1], s[j]] + post;
    assert t == pre + [s[j], s[j - 1]] + post;
    FilterAppend(pre + [s[j - 1], s[j]], post, p);
    FilterAppend(pre, [s[j - 1], s[j]], p);
    FilterAppend(pre + [s[j], s[j - 1]], post, p);
    FilterAppend(pre, [s[j], s[j - 1]], p);
    FilterSnoc([s[j - 1]], s[j], p);
    FilterSnoc([s[j]], s[j - 1], p);
    FilterSnoc([], s[j - 1], p);
    FilterSnoc([], s[j], p);
    assert [] + [s[j - 1]] == [s[j - 1]] && [] + [s[j]] == [s[j]];
  }

  /** Exchanging two neighbours with different keys keeps every key's
      elements in their order. */
  lemma SwapKeepsTies<T(!new), K(!new)>(s: seq<T>, j: nat, key: T -> K)
    requires 0 < j < |s| && key(s[j - 1]) != key(s[j])
    ensures KeepsTies(s, s[j - 1 := s[j]][j := s[j - 1]], key)
  {
    forall k ensures Ties(s[j - 1 := s[j]][j := s[j - 1]], key, k) == Ties(s, key, k) {
      FilterSwap(s, j, HasKey(key, k));
    }
  }

  lemma TiesTransitive<T(!new), K(!new)>(a: seq<T>, b: seq<T>, c: seq<T>, key: T -> K)
    requires KeepsTies(a, b, key) && KeepsTies(b, c, key)
    ensures KeepsTies(a, c, key)
  {
  }

  /** `arr.sort(cmp)` in place: afterwards the array is ordered by the key,
      holds the same elements, and, as the sort is stable, keeps the
      elements of equal key in their former order. */
  method SortInPlace<T(==,!new)>(a: array<T>, key: T -> Key, descending: bool)
    modifies a
    ensures SortedBy(a[..], key, descending)
    ensures multiset(a[..]) == old(multiset(a[..]))
    ensures KeepsTies(old(a[..]), a[..], key)
  {
    var i := 0;
    while i < a.Length
      invariant 0 <= i <= a.Length
      invariant SortedBy(a[..i], key, descending)
      invariant multiset(a[..]) == old(multiset(a[..]))
      invariant KeepsTies(old(a[..]), a[..], key)
    {
      SinkLast(a, i, key, descending);
      i := i + 1;
    }
    assert a[..a.Length] == a[..];
  }

  /** One insertion step: moves `a[i]` left past the elements that must
      follow it, so that `a[..i + 1]` is ordered; it passes no element of
      equal key. */
  method SinkLast<T(==,!new)>(a: array<T>, i: nat, key: T -> Key, descending: bool)
    requires i < a.Length
    requires SortedBy(a[..i], key, descending)
    modifies a
    ensures SortedBy(a[..i + 1], key, descending)
    ensures multiset(a[..]) == old(multiset(a[..]))
    ensures KeepsTies(old(a[..]), a[..], key)
  {
    var j := i;
    while j > 0 && !InOrder(a[j - 1], a[j], key, descending)
      invariant 0 <= j <= i
      invariant SortedApartFrom(a[..i + 1], j, key, descending)
      invariant multiset(a[..]) == old(multiset(a[..]))
      invariant KeepsTies(old(a[..]), a[..], key)
    {
      ghost var whole := a[..];
      SinkStep(old(a[..]), whole, i, j, key, descending);
      a[j - 1], a[j] := a[j], a[j - 1];
      assert a[..] == whole[j - 1 := whole[j]][j := whole[j - 1]];
      j := j - 1;
    }
    SettledIsSorted(a[..i + 1], j, key, descending);
  }

  /** One step of `SinkLast`: swapping the element at `j` with the one
      before it, which it should precede, moves the gap one place left,
      keeps the ties' order and the elements. */
  lemma SinkStep<T(!new)>(orig: seq<T>, s: seq<T>, i: nat, j: nat, key: T -> Key, descending: bool)
    requires 0 < j <= i < |s|
    requires SortedApartFrom(s[..i + 1], j, key, descending)
    requires !InOrder(s[j - 1], s[j], key, descending)
    requires KeepsTies(orig, s, key)
    ensures var t := s[j - 1 := s[j]][j := s[j - 1]];
      SortedApartFrom(t[..i + 1], j - 1, key, descending) && KeepsTies(orig, t, key)
      && multiset(t) == multiset(s)
  {
    var t := s[j - 1 := s[j]][j := s[j - 1]];
    var before := s[..i + 1];
    KeyLessIrreflexive(key(s[j]));
    SwapKeepsOrder(before, j, key, descending);
    assert t[..i + 1] == before[j - 1 := before[j]][j := before[j - 1]];
    SwapKeepsTies(s, j, key);
    TiesTransitive(orig, s, t, key);
  }

  /** All pairs not involving position `j` are in order, and the element at
      `j` may stand before everything to its right. */
  predicate SortedApartFrom<T>(s: seq<T>, j: nat, key: T -> Key, descending: bool) {
    j < |s|
    && (forall p, q :: 0 <= p < q < |s| && p != j && q != j ==> InOrder(s[p], s[q], key, descending))
    && (forall q :: j < q < |s| ==> InOrder(s[j], s[q], key, descending))
  }

  lemma SwapKeepsOrder<T>(s: seq<T>, j: nat, key: T -> Key, descending: bool)
    requires 0 < j && SortedApartFrom(s, j, key, descending)
    requires !InOrder(s[j - 1], s[j], key, descending)
    ensures SortedApartFrom(s[j - 1 := s[j]][j := s[j - 1]], j - 1, key, descending)
  {
    InOrderTotal(s[j - 1], s[j], key, descending);
  }

  lemma SettledIsSorted<T>(s: seq<T>, j: nat, key: T -> Key, descending: bool)
    requires SortedApartFrom(s, j, key, descending)
    requires j > 0 ==> InOrder(s[j - 1], s[j], key, descending)
    ensures SortedBy(s, key, descending)
  {
    forall p, q | 0 <= p < q < |s|
      ensures InOrder(s[p], s[q], key, descending)
    {
      if q == j && p < j - 1 {
        InOrderTransitive(s[p], s[j - 1], s[j], key, descending);
      }
    }
  }

  /** The keys do not decrease along `s`. */
  predicate Ascends<T>(s: seq<T>, key: T -> int) {
    forall i, j :: 0 <= i < j < |s| ==> key(s[i]) <= key(s[j])
  }

  /** Puts `x` into `s`, whose keys ascend, after every element whose key
      does not exceed its own. */
  function Insert<T>(x: T, s: seq<T>, key: T -> int): (r: seq<T>)
    requires Ascends(s, key)
    ensures Ascends(r, key)
    ensures multiset(r) == multiset(s) + multiset{x}
    ensures |r| == |s| + 1
  {
    if |s| == 0 then [x]
    else
      var init := s[..|s| - 1];
      var last := s[|s| - 1];
      assert s == init + [last];
      if key(x) < key(last) then
        var rest := Insert(x, init, key);
        InsertBefore(x, s, rest, key);
        rest + [last]
      else
        s + [x]
  }

  /** `x` belongs before the last element of `s`: it goes among the others. */
  lemma InsertBefore<T>(x: T, s: seq<T>, rest: seq<T>, key: T -> int)
    requires |s| > 0 && Ascends(s, key) && key(x) < key(s[|s| - 1])
    requires Ascends(rest, key)
    requires multiset(rest) == multiset(s[..|s| - 1]) + multiset{x}
    ensures Ascends(rest + [s[|s| - 1]], key)
  {
    var last := s[|s| - 1];
    var r := rest + [last];
    forall i | 0 <= i < |rest| ensures key(r[i]) <= key(last) {
      assert rest[i] in multiset(rest);
      var e := rest[i];
      if e != x {
        assert e in multiset(s[..|s| - 1]);
        var k :| 0 <= k < |s| - 1 && s[..|s| - 1][k] == e;
        assert s[k] == e;
      }
    }
  }

  /** Inserting `x` adds it behind every element of its key and changes
      the elements of any other key not at all. */
  lemma {:induction false} InsertTies<T(!new)>(x: T, s: seq<T>, key: T -> int, k: int)
    requires Ascends(s, key)
    ensures Ties(Insert(x, s, key), key, k) == Ties(s, key, k) + (if key(x) == k then [x] else [])
    decreases |s|
  {
    var p := HasKey(key, k);
    if |s| == 0 {
      assert Insert(x, s, key) == [x];
      FilterSnoc([], x, p);
      assert [] + [x] == [x];
    } else {
      var init := s[..|s| - 1];
      var last := s[|s| - 1];
      assert s == init + [last];
      if key(x) < key(last) {
        assert Ascends(init, key) by {
          forall i, j | 0 <= i < j < |init| ensures key(init[i]) <= key(init[j]) {
            assert init[i] == s[i] && init[j] == s[j];
          }
        }
        var rest := Insert(x, init, key);
        assert Insert(x, s, key) == rest + [last];
        InsertTies(x, init, key, k);
        PassBehind(rest, init, x, last, p);
      } else {
        assert Insert(x, s, key) == s + [x];
        FilterSnoc(s, x, p);
      }
    }
  }

  /** An element that does not share its filter with `x` may be appended
      behind `x`'s place as well as before it. */
  lemma PassBehind<T(!new)>(rest: seq<T>, init: seq<T>, x: T, last: T, p: T -> bool)
    requires Filter(rest, p) == Filter(init, p) + (if p(x) then [x] else [])
    requires !(p(x) && p(last))
    ensures Filter(rest + [last], p) == Filter(init + [last], p) + (if p(x) then [x] else [])
  {
    FilterSnoc(rest, last, p);
    FilterSnoc(init, last, p);
  }

  /** The stable sort by ascending numeric key, as a value: each element is
      inserted behind the elements already placed that have an equal key,
      so equal keys keep their order. */
  function Sorted<T(==,!new)>(s: seq<T>, key: T -> int): (r: seq<T>)
    ensures Ascends(r, key)
    ensures multiset(r) == multiset(s)
    ensures |r| == |s|
    ensures KeepsTies(s, r, key)
  {
    if |s| == 0 then []
    else
      var init := s[..|s| - 1];
      var last := s[|s| - 1];
      assert s == init + [last];
      var r := Insert(last, Sorted(init, key), key);
      assert KeepsTies(s, r, key) by {
        forall k ensures Ties(r, key, k) == Ties(s, key, k) {
          InsertTies(last, Sorted(init, key), key, k);
          FilterSnoc(init, last, HasKey(key, k));
        }
      }
      r
  }
}
