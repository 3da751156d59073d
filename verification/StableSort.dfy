/** Stable sorting by a total preorder: the meaning of Python's `sorted` and `list.sort`. */
module StableSort {

  ghost predicate TotalPreorder<T(!new)>(le: (T, T) -> bool) {
    && (forall x, y :: le(x, y) || le(y, x))
    && (forall x, y, z :: le(x, y) && le(y, z) ==> le(x, z))
  }

  ghost predicate Sorted<T>(le: (T, T) -> bool, s: seq<T>) {
    forall i, j :: 0 <= i < j < |s| ==> le(s[i], s[j])
  }

  /** The elements of `s` that tie with `y`, in their original order. */
  function Ties<T>(le: (T, T) -> bool, s: seq<T>, y: T): seq<T> {
    if s == [] then []
    else
      var x := s[|s| - 1];
      Ties(le, s[..|s| - 1], y) + if le(x, y) && le(y, x) then [x] else []
  }

  /** Put `x` after every element of the sorted `s` that may precede it. */
  function Insert<T>(le: (T, T) -> bool, s: seq<T>, x: T): seq<T> {
    if s == [] || le(s[|s| - 1], x) then s + [x]
    else Insert(le, s[..|s| - 1], x) + [s[|s| - 1]]
  }

  function Sort<T>(le: (T, T) -> bool, s: seq<T>): seq<T> {
    if s == [] then [] else Insert(le, Sort(le, s[..|s| - 1]), s[|s| - 1])
  }

  lemma {:induction false} InsertContents<T>(le: (T, T) -> bool, s: seq<T>, x: T)
    ensures multiset(Insert(le, s, x)) == multiset(s) + multiset{x}
    ensures |Insert(le, s, x)| == |s| + 1
  {
    if s != [] && !le(s[|s| - 1], x) {
      InsertContents(le, s[..|s| - 1], x);
      assert s == s[..|s| - 1] + [s[|s| - 1]];
    }
  }

  lemma {:induction false} InsertSorted<T(!new)>(le: (T, T) -> bool, s: seq<T>, x: T)
    requires TotalPreorder(le) && Sorted(le, s)
    ensures Sorted(le, Insert(le, s, x))
  {
    if s != [] && !le(s[|s| - 1], x) {
      var rest, last := s[..|s| - 1], s[|s| - 1];
      InsertSorted(le, rest, x);
      InsertContents(le, rest, x);
      var r := Insert(le, rest, x);
      forall i | 0 <= i < |r| ensures le(r[i], last) {
        assert r[i] in multiset(r);
        assert r[i] in rest || r[i] == x;
      }
    }
  }

  lemma {:induction false} InsertTies<T(!new)>(le: (T, T) -> bool, s: seq<T>, x: T, y: T)
    requires TotalPreorder(le) && Sorted(le, s)
    ensures Ties(le, Insert(le, s, x), y) == Ties(le, s + [x], y)
  {
    assert (s + [x])[..|s|] == s;
    if s != [] && !le(s[|s| - 1], x) {
      var rest, last := s[..|s| - 1], s[|s| - 1];
      InsertTies(le, rest, x, y);
      assert (rest + [x])[..|rest|] == rest;
      var r := Insert(le, rest, x);
      assert (r + [last])[..|r|] == r;
      InsertContents(le, rest, x);
    }
  }

  lemma {:induction false} SortContents<T>(le: (T, T) -> bool, s: seq<T>)
    ensures multiset(Sort(le, s)) == multiset(s)
    ensures |Sort(le, s)| == |s|
  {
    if s != [] {
      SortContents(le, s[..|s| - 1]);
      InsertContents(le, Sort(le, s[..|s| - 1]), s[|s| - 1]);
      assert s == s[..|s| - 1] + [s[|s| - 1]];
    }
  }

  /** `Sort` is a sort, and it is stable. */
  lemma {:induction false} SortIsStable<T(!new)>(le: (T, T) -> bool, s: seq<T>)
    requires TotalPreorder(le)
    ensures Sorted(le, Sort(le, s))
    ensures SameTies(le, Sort(le, s), s)
  {
    if s != [] {
      var rest, last := s[..|s| - 1], s[|s| - 1];
      SortIsStable(le, rest);
      InsertSorted(le, Sort(le, rest), last);
      forall y
        ensures Ties(le, Sort(le, s), y) == Ties(le, s, y)
      {
        InsertTies(le, Sort(le, rest), last, y);
        var t := Sort(le, rest);
        assert (t + [last])[..|t|] == t;
      }
    }
  }

  lemma {:induction false} TiesMembers<T>(le: (T, T) -> bool, s: seq<T>, y: T, x: T)
    ensures x in Ties(le, s, y) <==> x in s && le(x, y) && le(y, x)
  {
    if s != [] {
      TiesMembers(le, s[..|s| - 1], y, x);
      assert s == s[..|s| - 1] + [s[|s| - 1]];
    }
  }

  lemma Unsnoc<T>(u: seq<T>, v: seq<T>, x: T)
    requires u + [x] == v + [x]
    ensures u == v
  {
    assert (u + [x])[..|u|] == u;
    assert (v + [x])[..|v|] == v;
    assert |u + [x]| == |v + [x]|;
  }

  ghost predicate SameTies<T(!new)>(le: (T, T) -> bool, a: seq<T>, b: seq<T>) {
    forall y :: Ties(le, a, y) == Ties(le, b, y)
  }

  lemma SameTiesInit<T(!new)>(le: (T, T) -> bool, a: seq<T>, b: seq<T>)
    requires a != [] && b != [] && a[|a| - 1] == b[|b| - 1]
    requires SameTies(le, a, b)
    ensures SameTies(le, a[..|a| - 1], b[..|b| - 1])
  {
    var x := a[|a| - 1];
    var a', b' := a[..|a| - 1], b[..|b| - 1];
    forall y ensures Ties(le, a', y) == Ties(le, b', y) {
      assert Ties(le, a, y) == Ties(le, b, y);
      assert Ties(le, a, y) == Ties(le, a', y) + if le(x, y) && le(y, x) then [x] else [];
      assert Ties(le, b, y) == Ties(le, b', y) + if le(x, y) && le(y, x) then [x] else [];
      if le(x, y) && le(y, x) {
        Unsnoc(Ties(le, a', y), Ties(le, b', y), x);
      } else {
        assert Ties(le, a', y) + [] == Ties(le, a', y);
        assert Ties(le, b', y) + [] == Ties(le, b', y);
      }
    }
  }

  /** The last element of one of two sequences with the same tie classes occurs in the other,
      and ends its own tie class. */
  lemma LastOfTies<T(!new)>(le: (T, T) -> bool, a: seq<T>, b: seq<T>)
    requires TotalPreorder(le) && SameTies(le, a, b) && a != []
    ensures a[|a| - 1] in b
    ensures Ties(le, b, a[|a| - 1]) != []
    ensures var t := Ties(le, b, a[|a| - 1]); t[|t| - 1] == a[|a| - 1]
  {
    var x := a[|a| - 1];
    TiesMembers(le, a, x, x);
    TiesMembers(le, b, x, x);
    assert Ties(le, a, x) == Ties(le, b, x);
  }

  lemma LastsAgree<T(!new)>(le: (T, T) -> bool, a: seq<T>, b: seq<T>)
    requires TotalPreorder(le) && Sorted(le, a) && Sorted(le, b)
    requires SameTies(le, a, b) && a != [] && b != []
    ensures a[|a| - 1] == b[|b| - 1]
  {
    var x, z := a[|a| - 1], b[|b| - 1];
    LastOfTies(le, a, b);
    LastOfTies(le, b, a);
    assert le(z, x) && le(x, z);
    var t := Ties(le, b, x);
    assert t == Ties(le, b[..|b| - 1], x) + [z];
  }

  /** Stability pins the result down: two sorted sequences with the same tie classes are equal. */
  lemma {:induction false} StableUnique<T(!new)>(le: (T, T) -> bool, a: seq<T>, b: seq<T>)
    requires TotalPreorder(le) && Sorted(le, a) && Sorted(le, b)
    requires SameTies(le, a, b)
    ensures a == b
    decreases |a|
  {
    if b != [] { LastOfTies(le, b, a); }
    if a != [] {
      LastOfTies(le, a, b);
      LastsAgree(le, a, b);
      var x, z := a[|a| - 1], b[|b| - 1];
      SameTiesInit(le, a, b);
      StableUnique(le, a[..|a| - 1], b[..|b| - 1]);
      assert a == a[..|a| - 1] + [x];
      assert b == b[..|b| - 1] + [z];
    }
  }

  ghost predicate Tieless<T>(le: (T, T) -> bool, a: seq<T>) {
    forall i, j :: 0 <= i < j < |a| && le(a[i], a[j]) && le(a[j], a[i]) ==> a[i] == a[j]
  }

  lemma MultisetInit<T>(a: seq<T>)
    requires a != []
    ensures multiset(a) == multiset(a[..|a| - 1]) + multiset{a[|a| - 1]}
  {
    assert a == a[..|a| - 1] + [a[|a| - 1]];
  }

  lemma MaximaAgree<T(!new)>(le: (T, T) -> bool, a: seq<T>, b: seq<T>)
    requires Sorted(le, a) && Sorted(le, b) && Tieless(le, a)
    requires multiset(a) == multiset(b) && a != []
    ensures |a| == |b| && a[|a| - 1] == b[|b| - 1]
  {
    assert |a| == |multiset(a)| == |multiset(b)| == |b|;
    var x, z := a[|a| - 1], b[|b| - 1];
    assert x in multiset(b) && z in multiset(a);
    var i :| 0 <= i < |a| && a[i] == z;
    var j :| 0 <= j < |b| && b[j] == x;
    assert i == |a| - 1 || le(z, x);
    assert j == |b| - 1 || le(x, z);
  }

  lemma InitsAgree<T>(a: seq<T>, b: seq<T>)
    requires a != [] && b != [] && a[|a| - 1] == b[|b| - 1]
    requires multiset(a) == multiset(b)
    ensures multiset(a[..|a| - 1]) == multiset(b[..|b| - 1])
  {
    MultisetInit(a);
    MultisetInit(b);
    assert multiset(a[..|a| - 1]) == multiset(a) - multiset{a[|a| - 1]};
    assert multiset(b[..|b| - 1]) == multiset(b) - multiset{b[|b| - 1]};
  }

  /** When no two members tie, the order of the input does not matter. */
  lemma {:induction false} SortedUnique<T(!new)>(le: (T, T) -> bool, a: seq<T>, b: seq<T>)
    requires Sorted(le, a) && Sorted(le, b) && Tieless(le, a)
    requires multiset(a) == multiset(b)
    ensures a == b
    decreases |a|
  {
    if a == [] {
      assert |b| == |multiset(b)|;
    } else {
      MaximaAgree(le, a, b);
      var a', b' := a[..|a| - 1], b[..|b| - 1];
      InitsAgree(a, b);
      SortedUnique(le, a', b');
      assert a == a' + [a[|a| - 1]];
      assert b == b' + [b[|b| - 1]];
    }
  }

  /** Sorting an already sorted sequence with one element appended is a single insertion. */
  lemma {:induction false} SortOfSorted<T(!new)>(le: (T, T) -> bool, s: seq<T>)
    requires TotalPreorder(le) && Sorted(le, s)
    ensures Sort(le, s) == s
  {
    SortIsStable(le, s);
    StableUnique(le, Sort(le, s), s);
  }

  lemma SortAppended<T(!new)>(le: (T, T) -> bool, s: seq<T>, x: T)
    requires TotalPreorder(le) && Sorted(le, s)
    ensures Sort(le, s + [x]) == Insert(le, s, x)
  {
    SortOfSorted(le, s);
    assert (s + [x])[..|s|] == s;
  }

  /** Two sequences of one length whose members are related place by place. */
  predicate Pairwise<T>(r: (T, T) -> bool, s: seq<T>, t: seq<T>) {
    |s| == |t| && (s == [] ||
      (Pairwise(r, s[..|s| - 1], t[..|t| - 1]) && r(s[|s| - 1], t[|t| - 1])))
  }

  ghost predicate Respects<T(!new)>(le: (T, T) -> bool, r: (T, T) -> bool) {
    forall x, y, x', y' :: r(x, x') && r(y, y') ==> le(x, y) == le(x', y')
  }

  lemma {:induction false} InsertPairwise<T(!new)>(le: (T, T) -> bool, r: (T, T) -> bool,
                                                   s: seq<T>, t: seq<T>, x: T, y: T)
    requires Respects(le, r) && Pairwise(r, s, t) && r(x, y)
    ensures Pairwise(r, Insert(le, s, x), Insert(le, t, y))
  {
    if s == [] || le(s[|s| - 1], x) {
      assert (s + [x])[..|s|] == s && (t + [y])[..|t|] == t;
    } else {
      var s', t' := s[..|s| - 1], t[..|t| - 1];
      InsertPairwise(le, r, s', t', x, y);
      var u, v := Insert(le, s', x), Insert(le, t', y);
      assert (u + [s[|s| - 1]])[..|u|] == u && (v + [t[|t| - 1]])[..|v|] == v;
    }
  }

  /** Members related to members of the same rank end up in the same places. */
  lemma {:induction false} SortPairwise<T(!new)>(le: (T, T) -> bool, r: (T, T) -> bool, s: seq<T>, t: seq<T>)
    requires Respects(le, r) && Pairwise(r, s, t)
    ensures Pairwise(r, Sort(le, s), Sort(le, t))
  {
    if s != [] {
      SortPairwise(le, r, s[..|s| - 1], t[..|t| - 1]);
      InsertPairwise(le, r, Sort(le, s[..|s| - 1]), Sort(le, t[..|t| - 1]), s[|s| - 1], t[|t| - 1]);
    }
  }

  lemma {:induction false} PairwiseAt<T>(r: (T, T) -> bool, s: seq<T>, t: seq<T>)
    requires |s| == |t|
    ensures Pairwise(r, s, t) <==> forall i :: 0 <= i < |s| ==> r(s[i], t[i])
  {
    if s != [] { PairwiseAt(r, s[..|s| - 1], t[..|t| - 1]); }
  }
}
