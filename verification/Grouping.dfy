/** Rows grouped by a key, as a dictionary of lists built in order groups them. */
module Grouping {
  import opened Lists

  function HasKey<T(!new), K(==)>(key: T -> K, k: K): T -> bool {
    (x: T) => key(x) == k
  }

  /** The distinct keys in the order they first appear. */
  function FirstKeys<T(!new), K(==)>(s: seq<T>, key: T -> K): seq<K> {
    if s == [] then []
    else
      var before := FirstKeys(s[..|s| - 1], key);
      if key(s[|s| - 1]) in before then before else before + [key(s[|s| - 1])]
  }

  function Members<T(!new), K(==)>(s: seq<T>, key: T -> K, k: K): seq<T> {
    Where(s, HasKey(key, k))
  }

  /** The groups, in the order of their first member. */
  function Groups<T(!new), K(==)>(s: seq<T>, key: T -> K): seq<seq<T>> {
    var ks := FirstKeys(s, key);
    seq(|ks|, i requires 0 <= i < |ks| => Members(s, key, ks[i]))
  }

  method GroupInOrder<T(!new), K(==)>(s: seq<T>, key: T -> K) returns (groups: seq<seq<T>>)
    ensures groups == Groups(s, key)
  {
    var order: seq<K> := [];
    var lists: map<K, seq<T>> := map[];
    for i := 0 to |s|
      invariant order == FirstKeys(s[..i], key)
      invariant forall k :: k in lists <==> k in order
      invariant forall k <- lists :: lists[k] == Members(s[..i], key, k)
      invariant forall k :: k !in order ==> Members(s[..i], key, k) == []
    {
      assert s[..i + 1][..i] == s[..i] && s[..i + 1] == s[..i] + [s[i]];
      forall k
        ensures key(s[i]) == k ==> Members(s[..i + 1], key, k) == Members(s[..i], key, k) + [s[i]]
        ensures key(s[i]) != k ==> Members(s[..i + 1], key, k) == Members(s[..i], key, k)
      {
        WhereAppend(s[..i], s[i], HasKey(key, k));
        assert Members(s[..i], key, k) + [] == Members(s[..i], key, k);
      }
      var k := key(s[i]);
      if k in lists {
        lists := lists[k := lists[k] + [s[i]]];
      } else {
        order := order + [k];
        lists := lists[k := [s[i]]];
        assert Members(s[..i], key, k) + [s[i]] == [s[i]];
      }
      assert lists[k] == Members(s[..i + 1], key, k);
      assert forall other <- lists :: other != k ==> lists[other] == Members(s[..i], key, other);
    }
    assert s[..|s|] == s;
    groups := seq(|order|, i requires 0 <= i < |order| && order[i] in lists => lists[order[i]]);
  }

  lemma {:induction false} FirstKeysAre<T(!new), K>(s: seq<T>, key: T -> K)
    ensures forall k :: k in FirstKeys(s, key) <==> exists x :: x in s && key(x) == k
    ensures forall i, j :: 0 <= i < j < |FirstKeys(s, key)| ==> FirstKeys(s, key)[i] != FirstKeys(s, key)[j]
  {
    if s != [] {
      var front, last := s[..|s| - 1], s[|s| - 1];
      FirstKeysAre(front, key);
      assert s == front + [last];
    }
  }

  lemma {:induction false} WherePermutes<T(!new)>(a: seq<T>, b: seq<T>, p: T -> bool)
    requires multiset(a) == multiset(b)
    ensures multiset(Where(a, p)) == multiset(Where(b, p))
  {
    forall x ensures multiset(Where(a, p))[x] == multiset(Where(b, p))[x] {
      WhereCount(a, p, x);
      WhereCount(b, p, x);
    }
  }

  lemma {:induction false} WhereCount<T(!new)>(s: seq<T>, p: T -> bool, x: T)
    ensures multiset(Where(s, p))[x] == if p(x) then multiset(s)[x] else 0
  {
    if s != [] {
      WhereCount(s[1..], p, x);
      assert s == [s[0]] + s[1..];
      assert Where(s, p) == (if p(s[0]) then [s[0]] else []) + Where(s[1..], p);
    }
  }

  lemma SameKeys<T(!new), K>(a: seq<T>, b: seq<T>, key: T -> K, k: K)
    requires forall x :: x in a <==> x in b
    ensures k in FirstKeys(a, key) <==> k in FirstKeys(b, key)
  {
    FirstKeysAre(a, key);
    FirstKeysAre(b, key);
  }

  lemma KeysPermute<T(!new), K(!new)>(a: seq<T>, b: seq<T>, key: T -> K)
    requires multiset(a) == multiset(b)
    ensures multiset(FirstKeys(a, key)) == multiset(FirstKeys(b, key))
  {
    FirstKeysAre(a, key);
    FirstKeysAre(b, key);
    assert forall x :: x in a <==> x in multiset(a);
    assert forall x :: x in b <==> x in multiset(b);
    assert forall x :: x in a <==> x in b;
    var ka, kb := FirstKeys(a, key), FirstKeys(b, key);
    var ma, mb := multiset(ka), multiset(kb);
    forall k ensures ma[k] == mb[k] {
      DistinctCount(ka, k);
      DistinctCount(kb, k);
      SameKeys(a, b, key, k);
    }
    assert ma == mb;
  }

  lemma {:induction false} DistinctCount<K>(ks: seq<K>, k: K)
    requires forall i, j :: 0 <= i < j < |ks| ==> ks[i] != ks[j]
    ensures multiset(ks)[k] == if k in ks then 1 else 0
  {
    if ks != [] {
      var front, last := ks[..|ks| - 1], ks[|ks| - 1];
      DistinctCount(front, k);
      assert ks == front + [last];
    }
  }

  // ----- Working through the groups -----

  function Flat<K, U>(ks: seq<K>, g: K -> seq<U>): seq<U> {
    if ks == [] then [] else Flat(ks[..|ks| - 1], g) + g(ks[|ks| - 1])
  }

  lemma {:induction false} FlatMembers<K, U>(ks: seq<K>, g: K -> seq<U>, u: U)
    ensures u in Flat(ks, g) <==> exists i :: 0 <= i < |ks| && u in g(ks[i])
  {
    if ks != [] {
      var front := ks[..|ks| - 1];
      FlatMembers(front, g, u);
      assert forall i :: 0 <= i < |front| ==> front[i] == ks[i];
    }
  }

  /** A row that only one group gives out comes out as often as that group gives it. */
  lemma {:induction false} FlatCount<K, U>(ks: seq<K>, g: K -> seq<U>, u: U, i: nat)
    requires i < |ks| && forall j :: 0 <= j < |ks| && j != i ==> u !in g(ks[j])
    ensures multiset(Flat(ks, g))[u] == multiset(g(ks[i]))[u]
  {
    var n := |ks| - 1;
    var front := ks[..n];
    assert forall j :: 0 <= j < n ==> front[j] == ks[j];
    if i == n {
      FlatMembers(front, g, u);
      assert u !in Flat(front, g);
    } else {
      FlatCount(front, g, u, i);
      assert u !in g(ks[n]);
    }
  }

  lemma FlatLast<K, U>(front: seq<K>, last: K, g: K -> seq<U>)
    ensures Flat(front + [last], g) == Flat(front, g) + g(last)
  {
    assert (front + [last])[..|front|] == front;
  }

  lemma {:induction false} FlatCut<K, U>(left: seq<K>, k: K, right: seq<K>, g: K -> seq<U>)
    ensures multiset(Flat(left + [k] + right, g)) == multiset(Flat(left + right, g)) + multiset(g(k))
    decreases |right|
  {
    hide Flat;
    if right == [] {
      assert left + [k] + right == left + [k] && left + right == left;
      FlatLast(left, k, g);
    } else {
      var front, last := right[..|right| - 1], right[|right| - 1];
      assert left + [k] + right == left + [k] + front + [last] && left + right == left + front + [last];
      FlatLast(left + [k] + front, last, g);
      FlatLast(left + front, last, g);
      FlatCut(left, k, front, g);
    }
  }

  /** The order in which the groups come changes only the order of what comes out of them. */
  lemma {:induction false} FlatPermutes<K, U>(ks: seq<K>, ls: seq<K>, g: K -> seq<U>)
    requires multiset(ks) == multiset(ls)
    ensures multiset(Flat(ks, g)) == multiset(Flat(ls, g))
  {
    if ks == [] {
      assert |multiset(ls)| == |ls|;
    } else {
      hide Flat;
      var n := |ks| - 1;
      assert ks == ks[..n] + [ks[n]];
      assert ks[n] in multiset(ls);
      var i :| 0 <= i < |ls| && ls[i] == ks[n];
      assert ls == ls[..i] + [ls[i]] + ls[i + 1..];
      FlatLast(ks[..n], ks[n], g);
      FlatCut(ls[..i], ls[i], ls[i + 1..], g);
      assert multiset(ks[..n]) == multiset(ks) - multiset{ks[n]};
      assert multiset(ls[..i] + ls[i + 1..]) == multiset(ls) - multiset{ls[i]};
      FlatPermutes(ks[..n], ls[..i] + ls[i + 1..], g);
    }
  }

  lemma {:induction false} FlatPointwise<K, U>(ks: seq<K>, g: K -> seq<U>, h: K -> seq<U>)
    requires forall i :: 0 <= i < |ks| ==> multiset(g(ks[i])) == multiset(h(ks[i]))
    ensures multiset(Flat(ks, g)) == multiset(Flat(ks, h))
  {
    if ks != [] {
      var front := ks[..|ks| - 1];
      assert forall i :: 0 <= i < |front| ==> front[i] == ks[i];
      FlatPointwise(front, g, h);
    }
  }

  /** What each group of s turns into. */
  function OverGroups<T(!new), K(==), U>(s: seq<T>, key: T -> K, f: seq<T> -> seq<U>): seq<U> {
    Flat(FirstKeys(s, key), OnMembers(s, key, f))
  }

  function OnMembers<T(!new), K(==), U>(s: seq<T>, key: T -> K, f: seq<T> -> seq<U>): K -> seq<U> {
    (k: K) => f(Members(s, key, k))
  }

  /** Grouping and working through the groups, too, looks only at which rows there are. */
  lemma OverGroupsPermutes<T(!new), K(!new), U(!new)>(a: seq<T>, b: seq<T>, key: T -> K, f: seq<T> -> seq<U>)
    requires multiset(a) == multiset(b)
    requires forall k :: k in FirstKeys(a, key)
                         ==> multiset(f(Members(a, key, k))) == multiset(f(Members(b, key, k)))
    ensures multiset(OverGroups(a, key, f)) == multiset(OverGroups(b, key, f))
  {
    KeysPermute(a, b, key);
    FlatPermutes(FirstKeys(a, key), FirstKeys(b, key), OnMembers(b, key, f));
    FlatPointwise(FirstKeys(a, key), OnMembers(a, key, f), OnMembers(b, key, f));
  }

  // ----- Grouping what was grouped before -----

  lemma {:induction false} WhereAll<T(!new)>(s: seq<T>, p: T -> bool)
    requires forall x <- s :: p(x)
    ensures Where(s, p) == s
  {
    if s != [] {
      assert s[0] in s && forall x <- s[1..] :: x in s;
      WhereAll(s[1..], p);
    }
  }

  lemma {:induction false} KeysOfUniform<T(!new), K>(front: seq<T>, s: seq<T>, key: T -> K, k: K)
    requires s != [] && forall x <- s :: key(x) == k
    ensures FirstKeys(front + s, key) == if k in FirstKeys(front, key) then FirstKeys(front, key) else FirstKeys(front, key) + [k]
    decreases |s|
  {
    var last := s[|s| - 1];
    assert last in s;
    assert (front + s)[..|front + s| - 1] == front + s[..|s| - 1];
    if |s| == 1 {
      assert front + s[..0] == front;
    } else {
      assert forall x <- s[..|s| - 1] :: x in s;
      KeysOfUniform(front, s[..|s| - 1], key, k);
    }
  }

  lemma AppendedGroup<T(!new), K>(front: seq<T>, group: seq<T>, key: T -> K, k: K, last: K)
    requires (forall x <- group :: key(x) == last) && forall x <- front :: key(x) != last
    ensures Members(front + group, key, k) == if k == last then group else Members(front, key, k)
  {
    WhereConcat(front, group, HasKey(key, k));
    if k == last {
      WhereAll(group, HasKey(key, k));
      WhereNone(front, HasKey(key, k));
      assert [] + group == group;
    } else {
      WhereNone(group, HasKey(key, k));
      assert Members(front, key, k) + [] == Members(front, key, k);
    }
  }

  /** Rows laid out group by group fall into the same groups again. */
  lemma {:induction false} Regroup<T(!new), K>(ks: seq<K>, g: K -> seq<T>, key: T -> K)
    requires forall i, j :: 0 <= i < j < |ks| ==> ks[i] != ks[j]
    requires forall i :: 0 <= i < |ks| ==> g(ks[i]) != [] && forall x <- g(ks[i]) :: key(x) == ks[i]
    ensures FirstKeys(Flat(ks, g), key) == ks
    ensures forall i :: 0 <= i < |ks| ==> Members(Flat(ks, g), key, ks[i]) == g(ks[i])
  {
    if ks != [] {
      var n := |ks| - 1;
      var front, last := ks[..n], ks[n];
      assert forall i :: 0 <= i < n ==> front[i] == ks[i];
      Regroup(front, g, key);
      hide Where, FirstKeys;
      assert ks == front + [last] && last !in front;
      assert Flat(ks, g) == Flat(front, g) + g(last);
      hide Flat;
      KeysOfUniform(Flat(front, g), g(last), key, last);
      forall x | x in Flat(front, g) ensures key(x) != last {
        FlatMembers(front, g, x);
      }
      forall i | 0 <= i < |ks| ensures Members(Flat(ks, g), key, ks[i]) == g(ks[i]) {
        assert i < n ==> front[i] == ks[i];
        AppendedGroup(Flat(front, g), g(last), key, ks[i], last);
      }
    }
  }

  // ----- The first rows of each key -----

  /** The first n rows of each key, in the order of the rows. */
  function FirstPerKey<T(!new), K(==)>(s: seq<T>, key: T -> K, n: nat): seq<T> {
    if s == [] then []
    else
      var last := s[|s| - 1];
      var kept := FirstPerKey(s[..|s| - 1], key, n);
      if |Members(kept, key, key(last))| >= n then kept else kept + [last]
  }

  function First<T>(s: seq<T>, n: nat): seq<T> {
    if |s| <= n then s else s[..n]
  }

  lemma FirstAppend<T>(s: seq<T>, x: T, n: nat)
    ensures First(s + [x], n) == if |First(s, n)| >= n then First(s, n) else First(s, n) + [x]
  {
    if |s| >= n { assert (s + [x])[..n] == s[..n]; }
  }

  lemma MembersAppend<T(!new), K>(s: seq<T>, x: T, key: T -> K, k: K)
    ensures Members(s + [x], key, k) == if key(x) == k then Members(s, key, k) + [x] else Members(s, key, k)
  {
    WhereAppend(s, x, HasKey(key, k));
    assert Members(s, key, k) + [] == Members(s, key, k);
  }

  /** Of every key, exactly its first n rows are kept. */
  lemma {:induction false} FirstOfEachKey<T(!new), K>(s: seq<T>, key: T -> K, n: nat, k: K)
    ensures Members(FirstPerKey(s, key, n), key, k) == First(Members(s, key, k), n)
  {
    hide Members, First;
    if s == [] {
      NothingFirst(s, key, n, k);
    } else {
      var front, last := s[..|s| - 1], s[|s| - 1];
      FirstOfEachKey(front, key, n, k);
      assert s == front + [last];
      MembersAppend(front, last, key, k);
      MembersAppend(FirstPerKey(front, key, n), last, key, k);
      FirstAppend(Members(front, key, k), last, n);
    }
  }

  lemma NothingFirst<T(!new), K>(s: seq<T>, key: T -> K, n: nat, k: K)
    requires s == []
    ensures Members(s, key, k) == [] && First(Members(s, key, k), n) == []
  {
  }
}
