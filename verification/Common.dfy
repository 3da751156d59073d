/** Identifiers, optional values and a few facts about sequences shared by the model. */
module Common {
  type Id = string

  datatype Option<+T> = None | Some(value: T) {
    function Or(default: T): T {
      if Some? then value else default
    }
  }

  ghost predicate NoDup<T>(s: seq<T>) {
    s == [] || (s[|s| - 1] !in s[..|s| - 1] && NoDup(s[..|s| - 1]))
  }

  lemma SplitLast<T>(s: seq<T>)
    requires s != []
    ensures s == s[..|s| - 1] + [s[|s| - 1]]
  {}

  lemma {:induction false} NoDupApart<T>(s: seq<T>, i: nat, j: nat)
    requires NoDup(s) && i < j < |s|
    ensures s[i] != s[j]
  {
    if j < |s| - 1 {
      NoDupApart(s[..|s| - 1], i, j);
    } else {
      assert s[..|s| - 1][i] == s[i];
    }
  }

  lemma {:induction false} NoDupFromApart<T>(s: seq<T>)
    requires forall i, j :: 0 <= i < j < |s| ==> s[i] != s[j]
    ensures NoDup(s)
  {
    if s != [] { NoDupFromApart(s[..|s| - 1]); }
  }

  lemma NoDupTail<T>(s: seq<T>)
    requires NoDup(s) && s != []
    ensures NoDup(s[1..]) && s[0] !in s[1..]
  {
    forall i, j | 0 <= i < j < |s| - 1 ensures s[1..][i] != s[1..][j] { NoDupApart(s, i + 1, j + 1); }
    NoDupFromApart(s[1..]);
    forall j | 0 <= j < |s| - 1 ensures s[1..][j] != s[0] { NoDupApart(s, 0, j + 1); }
  }

  lemma NoDupExtended<T>(s: seq<T>, x: T)
    requires NoDup(s) && x !in s
    ensures NoDup(s + [x])
  {
    assert (s + [x])[..|s|] == s;
  }

  lemma {:induction false} NoDupCounts<T>(s: seq<T>)
    ensures NoDup(s) <==> forall x :: multiset(s)[x] <= 1
  {
    if s != [] {
      var init, last := s[..|s| - 1], s[|s| - 1];
      NoDupCounts(init);
      assert s == init + [last];
      assert multiset(s) == multiset(init) + multiset{last};
      assert last in init <==> multiset(init)[last] >= 1;
      assert multiset(s)[last] == multiset(init)[last] + 1;
      if NoDup(s) {
        forall x ensures multiset(s)[x] <= 1 {
          assert multiset(init)[x] <= 1;
        }
      } else if forall x :: multiset(s)[x] <= 1 {
        forall x ensures multiset(init)[x] <= 1 {
          assert multiset(s)[x] <= 1;
        }
      }
    }
  }

  /** Two halves that are known put together. */
  lemma Glued<T>(x: seq<T>, a: seq<T>, b: seq<T>, u: seq<T>, v: seq<T>, y: seq<T>)
    requires x == a + b && a == u && b == v && y == u + v
    ensures x == y
  {}

  lemma TakeOneMore<T>(s: seq<T>, n: nat)
    requires n < |s|
    ensures s[..n + 1] == s[..n] + [s[n]]
  {}

  lemma Regroup<T>(a: seq<T>, b: seq<T>, c: seq<T>)
    ensures (a + b) + c == a + (b + c)
  {}

  lemma MultisetCancel<T>(a: multiset<T>, b: multiset<T>, c: multiset<T>)
    requires a + c == b + c
    ensures a == b
  {
    forall x ensures a[x] == b[x] { assert (a + c)[x] == (b + c)[x]; }
  }

  lemma MultisetMoved<T>(a: multiset<T>, b: multiset<T>, c: multiset<T>, d: multiset<T>)
    requires a + (c + d) == b + c
    ensures b == a + d
  {
    forall x ensures b[x] == (a + d)[x] { assert (a + (c + d))[x] == (b + c)[x]; }
  }

  lemma MultisetShift<T>(a: multiset<T>, b: multiset<T>, c: multiset<T>, d: multiset<T>, rest: multiset<T>)
    requires a + c == b + d
    ensures (a + rest) + c == (b + rest) + d
  {
    forall x ensures ((a + rest) + c)[x] == ((b + rest) + d)[x] { assert (a + c)[x] == (b + d)[x]; }
  }

  lemma PermutedNoDup<T>(s: seq<T>, t: seq<T>)
    requires multiset(s) == multiset(t) && NoDup(s)
    ensures NoDup(t)
  {
    NoDupCounts(s);
    NoDupCounts(t);
  }

  lemma PermutedMembers<T>(s: seq<T>, t: seq<T>)
    requires multiset(s) == multiset(t)
    ensures forall x :: x in s <==> x in t
    ensures |s| == |t|
  {
    assert forall x :: x in s <==> x in multiset(s);
    assert forall x :: x in t <==> x in multiset(t);
    assert |s| == |multiset(s)| == |multiset(t)| == |t|;
  }

  /** `i % n` for an index that is in range or just past the end. */
  function Wrapped(i: nat, n: nat): (w: nat)
    requires n > 0
    ensures w < n
    ensures i < n ==> w == i
    ensures i == n ==> w == 0
  {
    i % n
  }

  lemma IndexIs<T>(s: seq<T>, i: nat)
    requires NoDup(s) && i < |s|
    ensures s[i] in s && IndexOf(s, s[i]) == i
  {
    var j := IndexOf(s, s[i]);
    if j != i { NoDupApart(s, if j < i then j else i, if j < i then i else j); }
  }

  /** Python's `list.index`. */
  function IndexOf<T(==)>(s: seq<T>, x: T): (i: nat)
    requires x in s
    ensures i < |s| && s[i] == x && x !in s[..i]
  {
    if s[0] == x then 0
    else
      assert s == [s[0]] + s[1..];
      assert s[..1 + IndexOf(s[1..], x)] == [s[0]] + s[1..][..IndexOf(s[1..], x)];
      1 + IndexOf(s[1..], x)
  }

  /** Python's `list.remove`: the first occurrence goes. */
  function Remove<T(==)>(s: seq<T>, x: T): seq<T>
    requires x in s
  {
    var i := IndexOf(s, x);
    s[..i] + s[i + 1..]
  }

  /** The members of `s` that are in `k`, in order. */
  function Keep<T(==)>(s: seq<T>, k: set<T>): seq<T> {
    if s == [] then [] else Keep(s[..|s| - 1], k) + if s[|s| - 1] in k then [s[|s| - 1]] else []
  }

  /** The members of `s` that are not in `k`, in order. */
  function Drop<T(==)>(s: seq<T>, k: set<T>): seq<T> {
    if s == [] then [] else Drop(s[..|s| - 1], k) + if s[|s| - 1] in k then [] else [s[|s| - 1]]
  }

  lemma {:induction false} KeepMembers<T>(s: seq<T>, k: set<T>)
    ensures forall x :: x in Keep(s, k) <==> x in s && x in k
  {
    if s != [] {
      KeepMembers(s[..|s| - 1], k);
      assert s == s[..|s| - 1] + [s[|s| - 1]];
    }
  }

  lemma {:induction false} DropMembers<T>(s: seq<T>, k: set<T>)
    ensures forall x :: x in Drop(s, k) <==> x in s && x !in k
  {
    if s != [] {
      DropMembers(s[..|s| - 1], k);
      assert s == s[..|s| - 1] + [s[|s| - 1]];
    }
  }

  lemma {:induction false} DropNone<T>(s: seq<T>, k: set<T>)
    requires forall x :: x in s ==> x !in k
    ensures Drop(s, k) == s
  {
    if s != [] {
      assert s == s[..|s| - 1] + [s[|s| - 1]];
      DropNone(s[..|s| - 1], k);
    }
  }

  lemma {:induction false} DropAll<T>(s: seq<T>, k: set<T>)
    requires forall x :: x in s ==> x in k
    ensures Drop(s, k) == []
  {
    if s != [] {
      assert s == s[..|s| - 1] + [s[|s| - 1]];
      DropAll(s[..|s| - 1], k);
    }
  }

  lemma {:induction false} DropConcat<T>(s: seq<T>, t: seq<T>, k: set<T>)
    ensures Drop(s + t, k) == Drop(s, k) + Drop(t, k)
  {
    if t == [] {
      assert s + t == s;
    } else {
      assert (s + t)[..|s + t| - 1] == s + t[..|t| - 1];
      DropConcat(s, t[..|t| - 1], k);
    }
  }

  lemma {:induction false} DropOfKeep<T>(s: seq<T>, k: set<T>, d: set<T>)
    ensures Drop(Keep(s, k), d) == Keep(s, k - d)
  {
    if s != [] {
      DropOfKeep(s[..|s| - 1], k, d);
      DropConcat(Keep(s[..|s| - 1], k), if s[|s| - 1] in k then [s[|s| - 1]] else [], d);
    }
  }

  lemma {:induction false} DropCommutes<T>(s: seq<T>, k: set<T>, d: set<T>)
    ensures Drop(Drop(s, k), d) == Drop(Drop(s, d), k)
  {
    if s != [] {
      var last := s[|s| - 1];
      DropCommutes(s[..|s| - 1], k, d);
      DropConcat(Drop(s[..|s| - 1], k), if last in k then [] else [last], d);
      DropConcat(Drop(s[..|s| - 1], d), if last in d then [] else [last], k);
    }
  }

  lemma DropMiddle<T>(u: seq<T>, x: T, v: seq<T>)
    requires x !in u && x !in v
    ensures Drop(u + [x] + v, {x}) == u + v
  {
    DropConcat(u + [x], v, {x});
    DropConcat(u, [x], {x});
    DropNone(u, {x});
    DropNone(v, {x});
    DropAll([x], {x});
    assert u + [] == u;
  }

  /** In a list without repeats, removing one occurrence removes the member. */
  lemma RemoveIsDrop<T>(s: seq<T>, x: T)
    requires x in s && NoDup(s)
    ensures Remove(s, x) == Drop(s, {x})
  {
    var i := IndexOf(s, x);
    assert x !in s[i + 1..] by {
      forall j | i + 1 <= j < |s| ensures s[j] != s[i] { NoDupApart(s, i, j); }
    }
    assert s == s[..i] + [x] + s[i + 1..];
    DropMiddle(s[..i], x, s[i + 1..]);
  }

  // --- the order of strings ---

  /** Python's `<=` on strings: by code point, a prefix first. */
  predicate StringLe(a: string, b: string) {
    a == [] || (b != [] && (a[0] < b[0] || (a[0] == b[0] && StringLe(a[1..], b[1..]))))
  }

  predicate StringLess(a: string, b: string) {
    a != b && StringLe(a, b)
  }

  lemma {:induction false} StringLeTotal(a: string, b: string)
    ensures StringLe(a, b) || StringLe(b, a)
    ensures StringLe(a, b) && StringLe(b, a) ==> a == b
  {
    if a != [] && b != [] && a[0] == b[0] {
      StringLeTotal(a[1..], b[1..]);
      assert a == [a[0]] + a[1..] && b == [b[0]] + b[1..];
    }
  }

  lemma {:induction false} StringLeTransitive(a: string, b: string, c: string)
    requires StringLe(a, b) && StringLe(b, c)
    ensures StringLe(a, c)
  {
    if a != [] && a[0] == b[0] && b[0] == c[0] {
      StringLeTransitive(a[1..], b[1..], c[1..]);
    }
  }
}
