/** Orders, the stable sort behind `sorted` and `list.sort`, and the first minimum of `min`. */
module Ordering {

  ghost predicate StrictWeakOrder<T(!new)>(less: (T, T) -> bool) {
    && (forall x :: !less(x, x))
    && (forall x, y, z :: less(x, y) && less(y, z) ==> less(x, z))
    && (forall x, y, z :: !less(x, y) && !less(y, z) ==> !less(x, z))
  }

  /** No later element goes before an earlier one. */
  ghost predicate Sorted<T>(less: (T, T) -> bool, s: seq<T>) {
    forall i, j :: 0 <= i < j < |s| ==> !less(s[j], s[i])
  }

  /** Places x before the first element that is not ahead of it. */
  function Insert<T>(less: (T, T) -> bool, x: T, s: seq<T>): seq<T> {
    if s == [] || !less(s[0], x) then [x] + s else [s[0]] + Insert(less, x, s[1..])
  }

  /** Stable sort: elements that tie keep their order. */
  function SortBy<T>(less: (T, T) -> bool, s: seq<T>): seq<T> {
    if s == [] then [] else Insert(less, s[0], SortBy(less, s[1..]))
  }

  lemma {:induction false} InsertKeeps<T>(less: (T, T) -> bool, x: T, s: seq<T>)
    ensures multiset(Insert(less, x, s)) == multiset(s) + multiset{x}
    ensures |Insert(less, x, s)| == |s| + 1
  {
    if s == [] || !less(s[0], x) {
    } else {
      InsertKeeps(less, x, s[1..]);
      assert s == [s[0]] + s[1..];
    }
  }

  lemma {:induction false} SortKeeps<T>(less: (T, T) -> bool, s: seq<T>)
    ensures multiset(SortBy(less, s)) == multiset(s)
    ensures |SortBy(less, s)| == |s|
  {
    if s != [] {
      SortKeeps(less, s[1..]);
      InsertKeeps(less, s[0], SortBy(less, s[1..]));
      assert s == [s[0]] + s[1..];
    }
  }

  lemma SortMembers<T>(less: (T, T) -> bool, s: seq<T>, x: T)
    ensures x in SortBy(less, s) <==> x in s
  {
    SortKeeps(less, s);
    assert x in multiset(SortBy(less, s)) <==> x in multiset(s);
  }

  lemma {:induction false} InsertSorted<T(!new)>(less: (T, T) -> bool, x: T, s: seq<T>)
    requires StrictWeakOrder(less) && Sorted(less, s)
    ensures Sorted(less, Insert(less, x, s))
  {
    if s == [] {
    } else if !less(s[0], x) {
      var r := [x] + s;
      forall i, j | 0 <= i < j < |r| ensures !less(r[j], r[i]) {
        if i == 0 && j > 1 {
          assert !less(s[j - 1], s[0]);
        }
      }
    } else {
      InsertSorted(less, x, s[1..]);
      var rest := Insert(less, x, s[1..]);
      InsertKeeps(less, x, s[1..]);
      var r := [s[0]] + rest;
      forall i, j | 0 <= i < j < |r| ensures !less(r[j], r[i]) {
        if i == 0 {
          assert r[j] in multiset(rest);
          if r[j] != x {
            assert r[j] in s[1..];
          }
        } else {
          assert !less(rest[j - 1], rest[i - 1]);
        }
      }
    }
  }

  lemma {:induction false} SortSorts<T(!new)>(less: (T, T) -> bool, s: seq<T>)
    requires StrictWeakOrder(less)
    ensures Sorted(less, SortBy(less, s))
  {
    if s != [] {
      SortSorts(less, s[1..]);
      InsertSorted(less, s[0], SortBy(less, s[1..]));
    }
  }

  /** Elements of s that tie are equal, so one order of them is the only sorted one. */
  ghost predicate Separates<T>(less: (T, T) -> bool, s: seq<T>) {
    forall x, y :: x in s && y in s && !less(x, y) && !less(y, x) ==> x == y
  }

  lemma HeadsAgree<T(!new)>(less: (T, T) -> bool, a: seq<T>, b: seq<T>)
    requires StrictWeakOrder(less) && a != [] && b != []
    requires Sorted(less, a) && Sorted(less, b) && multiset(a) == multiset(b)
    requires Separates(less, a)
    ensures a[0] == b[0]
  {
    assert b[0] in multiset(b) && a[0] in multiset(a);
    assert b[0] in a && a[0] in b;
    var i :| 0 <= i < |a| && a[i] == b[0];
    var j :| 0 <= j < |b| && b[j] == a[0];
    assert !less(b[0], a[0]) by { if i > 0 { assert !less(a[i], a[0]); } }
    assert !less(a[0], b[0]) by { if j > 0 { assert !less(b[j], b[0]); } }
  }

  lemma {:induction false} SortedIsUnique<T(!new)>(less: (T, T) -> bool, a: seq<T>, b: seq<T>)
    requires StrictWeakOrder(less)
    requires Sorted(less, a) && Sorted(less, b) && multiset(a) == multiset(b)
    requires Separates(less, a)
    ensures a == b
  {
    if a == [] || b == [] {
      assert |multiset(a)| == |a| && |multiset(b)| == |b|;
    } else {
      HeadsAgree(less, a, b);
      TailsAgree(a, b);
      assert a == [a[0]] + a[1..] && b == [b[0]] + b[1..];
      SortedIsUnique(less, a[1..], b[1..]);
    }
  }

  lemma TailsAgree<T>(a: seq<T>, b: seq<T>)
    requires a != [] && b != [] && a[0] == b[0] && multiset(a) == multiset(b)
    ensures multiset(a[1..]) == multiset(b[1..])
  {
    assert a == [a[0]] + a[1..] && b == [b[0]] + b[1..];
    assert multiset(a[1..]) == multiset(a) - multiset{a[0]};
    assert multiset(b[1..]) == multiset(b) - multiset{b[0]};
  }

  /** Sorting forgets the input order when no two different elements tie. */
  lemma SortForgetsOrder<T(!new)>(less: (T, T) -> bool, a: seq<T>, b: seq<T>)
    requires StrictWeakOrder(less) && multiset(a) == multiset(b) && Separates(less, a)
    ensures SortBy(less, a) == SortBy(less, b)
  {
    SortKeeps(less, a);
    SortKeeps(less, b);
    SortSorts(less, a);
    SortSorts(less, b);
    forall x | x in SortBy(less, a) ensures x in a { SortMembers(less, a, x); }
    SortedIsUnique(less, SortBy(less, a), SortBy(less, b));
  }

  /** The first element that no other is ahead of: Python's `min`. */
  function FirstMin<T>(less: (T, T) -> bool, s: seq<T>): T
    requires s != []
  {
    if |s| == 1 then s[0]
    else
      var rest := FirstMin(less, s[1..]);
      if less(rest, s[0]) then rest else s[0]
  }

  lemma {:induction false} FirstMinIsLeast<T(!new)>(less: (T, T) -> bool, s: seq<T>)
    requires s != [] && StrictWeakOrder(less)
    ensures FirstMin(less, s) in s
    ensures forall x :: x in s ==> !less(x, FirstMin(less, s))
  {
    if |s| > 1 {
      FirstMinIsLeast(less, s[1..]);
      forall x | x in s ensures !less(x, FirstMin(less, s)) {
        if x != s[0] { assert x in s[1..]; }
      }
    }
  }

  predicate RealLess(a: real, b: real) {
    a < b
  }

  lemma RealLessIsOrder()
    ensures StrictWeakOrder(RealLess)
  {
  }

  /** Dictionary order on sequences of numbers: the order of a tuple of sort keys. */
  predicate KeyLess(a: seq<real>, b: seq<real>) {
    if b == [] then false
    else if a == [] then true
    else a[0] < b[0] || (a[0] == b[0] && KeyLess(a[1..], b[1..]))
  }

  lemma {:induction false} KeyLessIrreflexive(a: seq<real>)
    ensures !KeyLess(a, a)
  {
    if a != [] { KeyLessIrreflexive(a[1..]); }
  }

  lemma {:induction false} KeyLessTransitive(a: seq<real>, b: seq<real>, c: seq<real>)
    ensures KeyLess(a, b) && KeyLess(b, c) ==> KeyLess(a, c)
    ensures !KeyLess(a, b) && !KeyLess(b, c) ==> !KeyLess(a, c)
  {
    if a != [] && b != [] && c != [] {
      KeyLessTransitive(a[1..], b[1..], c[1..]);
    }
  }

  lemma {:induction false} KeyLessTotal(a: seq<real>, b: seq<real>)
    requires !KeyLess(a, b) && !KeyLess(b, a)
    ensures a == b
  {
    if a != [] && b != [] {
      KeyLessTotal(a[1..], b[1..]);
      assert a == [a[0]] + a[1..] && b == [b[0]] + b[1..];
    }
  }

  /** What not coming later means for the first two components of a key. */
  lemma FirstTwoOf(a: seq<real>, b: seq<real>)
    requires |a| >= 2 && |b| >= 2 && !KeyLess(b, a)
    ensures a[0] <= b[0] && (a[0] == b[0] ==> a[1] <= b[1])
  {
    assert a[1..][0] == a[1] && b[1..][0] == b[1];
    assert KeyLess(b[1..], a[1..]) <==> b[1] < a[1] || (b[1] == a[1] && KeyLess(b[1..][1..], a[1..][1..]));
  }

  /** A text as a sort key: its characters' codes, which order as the text does. */
  function Text(s: string): seq<real> {
    seq(|s|, i requires 0 <= i < |s| => s[i] as int as real)
  }

  lemma TextIsFaithful(a: string, b: string)
    requires Text(a) == Text(b)
    ensures a == b
  {
    assert |a| == |Text(a)| == |b|;
    forall i | 0 <= i < |a| ensures a[i] == b[i] {
      assert Text(a)[i] == Text(b)[i];
    }
  }

  /** Compares two values by the key each is given. */
  function ByKey<T(!new)>(key: T -> seq<real>): (T, T) -> bool {
    (x, y) => KeyLess(key(x), key(y))
  }

  lemma ByKeyIsOrder<T(!new)>(key: T -> seq<real>)
    ensures StrictWeakOrder(ByKey(key))
  {
    var less := ByKey(key);
    forall x ensures !less(x, x) { KeyLessIrreflexive(key(x)); }
    forall x, y, z
      ensures less(x, y) && less(y, z) ==> less(x, z)
      ensures !less(x, y) && !less(y, z) ==> !less(x, z)
    {
      KeyLessTransitive(key(x), key(y), key(z));
    }
  }
}
