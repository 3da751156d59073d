/** What a verified chain of hashes pins down, for a digest without collisions among what it was fed. */
module Integrity {
  import opened Common
  import opened StableSort
  import opened CommitHash
  import opened Chain

  function AllHashed(h: Digest, s: seq<BundleCommit>): set<string> {
    HashedTexts(h, Sort(ByDepth, s))
  }

  // --- agreement of ancestries ---

  ghost predicate Rootless(s: seq<BundleCommit>, c: BundleCommit) {
    forall p :: p in s ==> !ParentIs(c, p)
  }

  /** `line` is the events of every ancestor of `c` in the bundle, oldest first, then its own. */
  ghost predicate IsLineage(s: seq<BundleCommit>, c: BundleCommit, line: seq<seq<string>>)
    decreases |line|
  {
    && line != [] && line[|line| - 1] == Texts(c)
    && (Rootless(s, c) ==> |line| == 1)
    && (!Rootless(s, c) ==>
          exists p :: p in s && ParentIs(c, p) && IsLineage(s, p, line[..|line| - 1]))
  }

  lemma ShallowerIsEarlier(s: seq<BundleCommit>, i: nat, j: nat)
    requires i < |s| && j < |s| && Sorted(ByDepth, s) && s[j].depth < s[i].depth
    ensures j < i
  {}

  lemma {:induction false} LineageInOrder(s: seq<BundleCommit>, n: nat, c: BundleCommit)
    returns (line: seq<seq<string>>)
    requires n <= |s| && c in s[..n] && DistinctIds(s) && Sorted(ByDepth, s) && ParentsShallower(s)
    ensures IsLineage(s, c, line)
    decreases n
  {
    if Rootless(s, c) {
      line := [Texts(c)];
    } else {
      var p :| p in s && ParentIs(c, p);
      var i :| 0 <= i < n && s[i] == c;
      var j :| 0 <= j < |s| && s[j] == p;
      ShallowerIsEarlier(s, i, j);
      assert p == s[..i][j];
      var before := LineageInOrder(s, i, p);
      line := before + [Texts(c)];
      assert line[..|line| - 1] == before;
    }
  }

  lemma {:induction false} LineagePermuted(s: seq<BundleCommit>, t: seq<BundleCommit>, c: BundleCommit,
                                           line: seq<seq<string>>)
    requires forall x :: x in s <==> x in t
    requires IsLineage(s, c, line)
    ensures IsLineage(t, c, line)
    decreases |line|
  {
    if Rootless(s, c) {
      assert Rootless(t, c);
    } else {
      var p :| p in s && ParentIs(c, p) && IsLineage(s, p, line[..|line| - 1]);
      LineagePermuted(s, t, p, line[..|line| - 1]);
      assert p in t;
    }
  }

  /** Every commit of a well-formed bundle has an ancestry. */
  lemma LineageExists(s: seq<BundleCommit>, c: BundleCommit) returns (line: seq<seq<string>>)
    requires WellFormed(s) && c in s
    ensures IsLineage(s, c, line)
  {
    var t := Sort(ByDepth, s);
    SortedCommits(s);
    assert t[..|t|] == t;
    line := LineageInOrder(t, |t|, c);
    LineagePermuted(t, s, c, line);
  }

  lemma {:induction false} HashedInOrder(h: Digest, s: seq<BundleCommit>, c: BundleCommit)
    requires DistinctIds(s) && ParentsFirst(s) && c in s
    ensures Hashed(ChainIn(h, s), c) in HashedTexts(h, s)
  {
    var init, last := s[..|s| - 1], s[|s| - 1];
    assert s == init + [last];
    LaterChangesNothing(h, ChainIn(h, init), c, last, ChainIn(h, s)[last.id]);
    if c in init { HashedInOrder(h, init, c); }
  }

  lemma HashedIsListed(h: Digest, s: seq<BundleCommit>, c: BundleCommit)
    requires DistinctIds(s) && ParentsShallower(s) && c in s
    ensures Hashed(ChainOf(h, s), c) in AllHashed(h, s)
  {
    SortedCommits(s);
    ShallowIsFirst(Sort(ByDepth, s));
    HashedInOrder(h, Sort(ByDepth, s), c);
  }

  lemma StoredIsHashed(h: Digest, s: seq<BundleCommit>, c: BundleCommit)
    requires DistinctIds(s) && ParentsShallower(s) && Accepts(h, s) && c in s
    ensures c.hash == h(Hashed(ChainOf(h, s), c))
  {
    ChainIsTheSolution(h, s, ChainOf(h, s));
  }

  lemma StoredParent(h: Digest, s: seq<BundleCommit>, c: BundleCommit)
    requires DistinctIds(s) && Accepts(h, s)
    ensures Rootless(s, c) <==> ParentHash(ChainOf(h, s), c) == None
    ensures forall p :: p in s && ParentIs(c, p) ==> ParentHash(ChainOf(h, s), c) == Some(p.hash)
  {
    SortedCommits(s);
    ChainKeys(h, Sort(ByDepth, s));
    if c.parent.Some? { IdsMembers(Sort(ByDepth, s), c.parent.value); }
  }

  lemma ParentHashIsDigest(h: Digest, s: seq<BundleCommit>, c: BundleCommit)
    requires GivesDigests(h)
    ensures var p := ParentHash(ChainOf(h, s), c); p.Some? ==> LooksLikeDigest(p.value)
  {
    ChainGivesDigests(h, Sort(ByDepth, s));
  }

  ghost predicate Verified(h: Digest, s: seq<BundleCommit>) {
    WellFormed(s) && Accepts(h, s)
  }

  /** Two stored hashes that agree were taken over the same events and the same parent hash. */
  lemma AgreeOnce(h: Digest, s: seq<BundleCommit>, t: seq<BundleCommit>, c: BundleCommit, d: BundleCommit)
    requires GivesDigests(h) && NoCollision(h, AllHashed(h, s) + AllHashed(h, t))
    requires Verified(h, s) && Verified(h, t) && c in s && d in t && c.hash == d.hash
    ensures Texts(c) == Texts(d)
    ensures ParentHash(ChainOf(h, s), c) == ParentHash(ChainOf(h, t), d)
  {
    StoredIsHashed(h, s, c);
    StoredIsHashed(h, t, d);
    HashedIsListed(h, s, c);
    HashedIsListed(h, t, d);
    ParentHashIsDigest(h, s, c);
    ParentHashIsDigest(h, t, d);
    TextsOfObjects(s, c);
    TextsOfObjects(t, d);
    HashTextReadsBack(ParentHash(ChainOf(h, s), c), Texts(c), ParentHash(ChainOf(h, t), d), Texts(d));
  }

  lemma ParentsAgree(h: Digest, s: seq<BundleCommit>, t: seq<BundleCommit>, c: BundleCommit, d: BundleCommit)
    requires Verified(h, s) && Verified(h, t)
    requires ParentHash(ChainOf(h, s), c) == ParentHash(ChainOf(h, t), d)
    ensures Rootless(s, c) <==> Rootless(t, d)
    ensures forall p, q :: p in s && q in t && ParentIs(c, p) && ParentIs(d, q) ==> p.hash == q.hash
  {
    StoredParent(h, s, c);
    StoredParent(h, t, d);
  }

  lemma LineageSteps(s: seq<BundleCommit>, c: BundleCommit, line: seq<seq<string>>)
    returns (p: Option<BundleCommit>, before: seq<seq<string>>)
    requires IsLineage(s, c, line)
    ensures line == before + [Texts(c)]
    ensures p.None? <==> Rootless(s, c)
    ensures p.None? ==> before == []
    ensures p.Some? ==> p.value in s && ParentIs(c, p.value) && IsLineage(s, p.value, before)
  {
    before := line[..|line| - 1];
    assert line == before + [Texts(c)];
    p := None;
    if !Rootless(s, c) {
      var q :| q in s && ParentIs(c, q) && IsLineage(s, q, line[..|line| - 1]);
      p := Some(q);
    }
  }

  /** Agreeing on one commit's hash is agreeing on everything before it. */
  lemma {:induction false} ChainsAgree(h: Digest, s: seq<BundleCommit>, t: seq<BundleCommit>,
                                       c: BundleCommit, d: BundleCommit,
                                       line: seq<seq<string>>, other: seq<seq<string>>)
    requires GivesDigests(h) && NoCollision(h, AllHashed(h, s) + AllHashed(h, t))
    requires Verified(h, s) && Verified(h, t) && c in s && d in t && c.hash == d.hash
    requires IsLineage(s, c, line) && IsLineage(t, d, other)
    ensures line == other
    decreases |line|
  {
    AgreeOnce(h, s, t, c, d);
    ParentsAgree(h, s, t, c, d);
    var p, before := LineageSteps(s, c, line);
    var q, earlier := LineageSteps(t, d, other);
    if p.Some? {
      ChainsAgree(h, s, t, p.value, q.value, before, earlier);
    }
  }

  // --- changed events under kept hashes ---

  predicate Alike(c: BundleCommit, d: BundleCommit) {
    d == c.(events := d.events)
  }

  /** `t` is `s` with nothing but events changed: ids, parents, depths and stored hashes stay. */
  predicate Rewritten(s: seq<BundleCommit>, t: seq<BundleCommit>) {
    Pairwise(Alike, s, t)
  }

  /** Every commit still hashes the same events in the same order. */
  ghost predicate SameTexts(s: seq<BundleCommit>, t: seq<BundleCommit>) {
    forall c, d :: c in s && d in t && c.id == d.id ==> Texts(c) == Texts(d)
  }

  lemma {:induction false} RewrittenIds(s: seq<BundleCommit>, t: seq<BundleCommit>)
    requires Rewritten(s, t)
    ensures Ids(s) == Ids(t)
    ensures DistinctIds(s) <==> DistinctIds(t)
  {
    if s != [] { RewrittenIds(s[..|s| - 1], t[..|t| - 1]); }
  }

  ghost predicate AcceptsInOrder(h: Digest, s: seq<BundleCommit>) {
    forall c :: c in s ==> c.id in ChainIn(h, s) && ChainIn(h, s)[c.id] == c.hash
  }

  lemma ChainInLast(h: Digest, s: seq<BundleCommit>)
    requires s != []
    ensures ChainIn(h, s) == ChainIn(h, s[..|s| - 1])[s[|s| - 1].id := h(Hashed(ChainIn(h, s[..|s| - 1]), s[|s| - 1]))]
  {}

  lemma AcceptsInit(h: Digest, s: seq<BundleCommit>, init: seq<BundleCommit>, last: BundleCommit)
    requires s == init + [last] && DistinctIds(s) && AcceptsInOrder(h, s)
    ensures AcceptsInOrder(h, init)
    ensures last.hash == h(Hashed(ChainIn(h, init), last))
  {
    assert s[..|s| - 1] == init;
    ChainInLast(h, s);
    ChainKeys(h, init);
    assert last in s;
    forall c | c in init ensures c.id in ChainIn(h, init) && c.id != last.id && c in s {
      IdIsListed(init, c);
    }
  }

  lemma SameTextsInit(s: seq<BundleCommit>, t: seq<BundleCommit>)
    requires s != [] && t != [] && s[|s| - 1].id == t[|t| - 1].id
    requires SameTexts(s, t)
    ensures SameTexts(s[..|s| - 1], t[..|t| - 1]) && Texts(s[|s| - 1]) == Texts(t[|t| - 1])
  {
    assert s[|s| - 1] in s && t[|t| - 1] in t;
  }

  lemma SameTextsExtended(s: seq<BundleCommit>, t: seq<BundleCommit>)
    requires s != [] && t != [] && Rewritten(s, t) && DistinctIds(s)
    requires SameTexts(s[..|s| - 1], t[..|t| - 1]) && Texts(s[|s| - 1]) == Texts(t[|t| - 1])
    ensures SameTexts(s, t)
  {
    var s', c, t', d := s[..|s| - 1], s[|s| - 1], t[..|t| - 1], t[|t| - 1];
    assert s == s' + [c] && t == t' + [d];
    RewrittenIds(s', t');
    forall x, y | x in s && y in t && x.id == y.id ensures Texts(x) == Texts(y) {
      if x in s' { IdIsListed(s', x); }
      if y in t' { IdIsListed(t', y); }
    }
  }

  lemma SameHashedSameTexts(before: map<Id, string>, c: BundleCommit, d: BundleCommit)
    requires c.parent == d.parent && Hashed(before, c) == Hashed(before, d)
    requires AllObjects(Texts(c)) && AllObjects(Texts(d))
    ensures Texts(c) == Texts(d)
  {
    var p := ParentHash(before, c).Or("");
    assert Concat(Texts(c)) == Hashed(before, c)[|p|..] == Concat(Texts(d));
    ConcatReadsBack(Texts(c), Texts(d));
  }

  lemma LastAcceptedSameTexts(h: Digest, before: map<Id, string>, texts: set<string>,
                              c: BundleCommit, d: BundleCommit)
    requires NoCollision(h, texts) && Hashed(before, c) in texts && Hashed(before, d) in texts
    requires Alike(c, d) && c.hash == h(Hashed(before, c)) && d.hash == h(Hashed(before, d))
    requires AllObjects(Texts(c)) && AllObjects(Texts(d))
    ensures Texts(c) == Texts(d)
  {
    SameHashedSameTexts(before, c, d);
  }

  lemma {:induction false} BothAcceptedSameTexts(h: Digest, texts: set<string>,
                                                 s: seq<BundleCommit>, t: seq<BundleCommit>)
    requires NoCollision(h, texts) && HashedTexts(h, s) <= texts && HashedTexts(h, t) <= texts
    requires DistinctIds(s) && DistinctIds(t) && ObjectEvents(s) && ObjectEvents(t) && Rewritten(s, t)
    requires AcceptsInOrder(h, s) && AcceptsInOrder(h, t)
    ensures SameTexts(s, t) && ChainIn(h, s) == ChainIn(h, t)
  {
    if s != [] {
      var s', c, t', d := s[..|s| - 1], s[|s| - 1], t[..|t| - 1], t[|t| - 1];
      SplitLast(s);
      SplitLast(t);
      AcceptsInit(h, s, s', c);
      AcceptsInit(h, t, t', d);
      BothAcceptedSameTexts(h, texts, s', t');
      TextsOfObjects(s, c);
      TextsOfObjects(t, d);
      LastAcceptedSameTexts(h, ChainIn(h, s'), texts, c, d);
      SameTextsExtended(s, t);
    }
  }

  lemma {:induction false} SameTextsSameChain(h: Digest, s: seq<BundleCommit>, t: seq<BundleCommit>)
    requires Rewritten(s, t) && SameTexts(s, t)
    ensures ChainIn(h, s) == ChainIn(h, t)
  {
    if s != [] {
      SameTextsInit(s, t);
      SameTextsSameChain(h, s[..|s| - 1], t[..|t| - 1]);
    }
  }

  lemma {:induction false} RewrittenFrom(s: seq<BundleCommit>, t: seq<BundleCommit>, d: BundleCommit)
    requires Rewritten(s, t) && d in t
    ensures exists c :: c in s && Alike(c, d)
  {
    assert s == s[..|s| - 1] + [s[|s| - 1]] && t == t[..|t| - 1] + [t[|t| - 1]];
    if d in t[..|t| - 1] {
      RewrittenFrom(s[..|s| - 1], t[..|t| - 1], d);
      var c :| c in s[..|s| - 1] && Alike(c, d);
      assert c in s;
    } else {
      assert s[|s| - 1] in s;
    }
  }

  /** Under the stored hashes of a verified bundle, changed events are caught unless every
      commit still lists the same events in the same order. */
  lemma TamperingIsCaught(h: Digest, s: seq<BundleCommit>, t: seq<BundleCommit>)
    requires NoCollision(h, AllHashed(h, s) + AllHashed(h, t))
    requires DistinctIds(s) && ObjectEvents(s) && ObjectEvents(t)
    requires Accepts(h, s) && Rewritten(s, t)
    ensures Accepts(h, t) <==> SameTexts(s, t)
  {
    var s', t' := Sort(ByDepth, s), Sort(ByDepth, t);
    SortedCommits(s);
    SortedCommits(t);
    SortPairwise(ByDepth, Alike, s, t);
    if Accepts(h, t) {
      RewrittenIds(s', t');
      BothAcceptedSameTexts(h, AllHashed(h, s) + AllHashed(h, t), s', t');
    } else if SameTexts(s, t) {
      assert SameTexts(s', t');
      SameTextsSameChain(h, s', t');
      forall d | d in t ensures d.id in ChainOf(h, t) && ChainOf(h, t)[d.id] == d.hash {
        RewrittenFrom(s, t, d);
      }
    }
  }

  lemma SortTwo(c: BundleCommit, d: BundleCommit)
    requires ByDepth(c, d)
    ensures Sort(ByDepth, [c, d]) == [c, d]
  {
    assert [c, d][..1] == [c] && [c][..0] == [];
    assert Sort(ByDepth, [c]) == Insert(ByDepth, [], c) == [c];
    assert Sort(ByDepth, [c, d]) == Insert(ByDepth, [c], d) == [c] + [d];
  }

  lemma ChainOfTwo(h: Digest, c: BundleCommit, d: BundleCommit)
    requires c.id == d.id && c.parent == None && d.parent == None
    ensures ChainIn(h, [c, d]) == map[c.id := h(Concat(Texts(d)))]
  {
    assert [c, d][..1] == [c] && [c][..0] == [];
    var before := ChainIn(h, [c]);
    assert ChainIn(h, [c][..0]) == map[];
    assert "" + Concat(Texts(c)) == Concat(Texts(c));
    assert Hashed(map[], c) == Concat(Texts(c));
    assert before == map[c.id := h(Concat(Texts(c)))];
    assert Hashed(before, d) == Concat(Texts(d));
  }

  lemma OneEvent()
    ensures IsObjectText("{}") && Jsons(Sort(ByPlace, [BundleEvent(0, "{}")])) == ["{}"]
  {
    assert "{}"[..1] == "{" && "{"[..0] == "";
    var e := BundleEvent(0, "{}");
    assert [e][..0] == [] && Sort(ByPlace, [e]) == [e];
  }

  /** With a repeated id only the last commit of that id is checked: here the events of the
      shallower one change unnoticed. */
  lemma RepeatedIdGoesUnchecked(h: Digest) returns (s: seq<BundleCommit>, t: seq<BundleCommit>)
    ensures Accepts(h, s) && Accepts(h, t) && Rewritten(s, t)
    ensures ObjectEvents(s) && ObjectEvents(t) && s != [] && t != [] && Texts(s[0]) != Texts(t[0])
  {
    var deep := BundleCommit("a", None, 1, h(""), []);
    var one, two := deep.(depth := 0), deep.(depth := 0, events := [BundleEvent(0, "{}")]);
    s, t := [one, deep], [two, deep];
    OneEvent();
    SortTwo(one, deep);
    SortTwo(two, deep);
    ChainOfTwo(h, one, deep);
    ChainOfTwo(h, two, deep);
    assert s[..1] == [one] && t[..1] == [two];
    assert [one][..0] == [] && [two][..0] == [];
    assert Rewritten([one][..0], [two][..0]) && Alike([one][0], [two][0]);
    assert Rewritten([one], [two]);
  }
}
