/** The commit chain of an export bundle: each commit's hash from its parent's hash and its own events. */
module Chain {
  import opened Common
  import opened StableSort
  import opened CommitHash

  /** An event's place in its commit, and the canonical JSON of its domain event. */
  datatype BundleEvent = BundleEvent(place: int, json: string)

  datatype BundleCommit = BundleCommit(id: Id, parent: Option<Id>, depth: int, hash: string,
                                       events: seq<BundleEvent>)

  predicate ByPlace(e: BundleEvent, f: BundleEvent) { e.place <= f.place }

  predicate ByDepth(c: BundleCommit, d: BundleCommit) { c.depth <= d.depth }

  function Jsons(events: seq<BundleEvent>): seq<string> {
    seq(|events|, i requires 0 <= i < |events| => events[i].json)
  }

  /** The commit's events as they are hashed: in order of place. */
  function Texts(c: BundleCommit): seq<string> {
    Jsons(Sort(ByPlace, c.events))
  }

  /** A parent counts only when it has been hashed already; the empty id is no parent. */
  function ParentHash(hashes: map<Id, string>, c: BundleCommit): Option<string> {
    if c.parent.Some? && c.parent.value != "" && c.parent.value in hashes
    then Some(hashes[c.parent.value]) else None
  }

  function Hashed(hashes: map<Id, string>, c: BundleCommit): string {
    HashText(ParentHash(hashes, c), Texts(c))
  }

  /** The hashes of commits taken in the given order; a repeated id keeps its last hash. */
  function ChainIn(h: Digest, s: seq<BundleCommit>): map<Id, string> {
    if s == [] then map[]
    else
      var before := ChainIn(h, s[..|s| - 1]);
      before[s[|s| - 1].id := h(Hashed(before, s[|s| - 1]))]
  }

  function ChainOf(h: Digest, commits: seq<BundleCommit>): map<Id, string> {
    ChainIn(h, Sort(ByDepth, commits))
  }

  /** Everything fed to the digest on the way. */
  function HashedTexts(h: Digest, s: seq<BundleCommit>): set<string> {
    if s == [] then {}
    else HashedTexts(h, s[..|s| - 1]) + {Hashed(ChainIn(h, s[..|s| - 1]), s[|s| - 1])}
  }

  method ChainHashes(h: Digest, commits: seq<BundleCommit>) returns (hashes: map<Id, string>)
    ensures hashes == ChainOf(h, commits)
  {
    hashes := map[];
    var ordered := Sort(ByDepth, commits);
    for i := 0 to |ordered|
      invariant hashes == ChainIn(h, ordered[..i])
    {
      var c := ordered[i];
      assert ordered[..i + 1][..i] == ordered[..i];
      var parent := if c.parent.Some? && c.parent.value != "" && c.parent.value in hashes
        then Some(hashes[c.parent.value]) else None;
      var events := Sort(ByPlace, c.events);
      hashes := hashes[c.id := h(HashText(parent, Jsons(events)))];
    }
    assert ordered[..|ordered|] == ordered;
  }

  // --- the set of commits ---

  function Ids(s: seq<BundleCommit>): set<Id> {
    if s == [] then {} else Ids(s[..|s| - 1]) + {s[|s| - 1].id}
  }

  lemma {:induction false} IdsMembers(s: seq<BundleCommit>, x: Id)
    ensures x in Ids(s) <==> exists c :: c in s && c.id == x
  {
    if s != [] {
      var init, last := s[..|s| - 1], s[|s| - 1];
      assert s == init + [last];
      IdsMembers(init, x);
      assert last in s;
    }
  }

  lemma IdIsListed(s: seq<BundleCommit>, c: BundleCommit)
    requires c in s
    ensures c.id in Ids(s)
  {
    IdsMembers(s, c.id);
  }

  lemma IdsPermuted(s: seq<BundleCommit>, t: seq<BundleCommit>)
    requires forall c :: c in s <==> c in t
    ensures Ids(s) == Ids(t)
  {
    forall x ensures x in Ids(s) <==> x in Ids(t) {
      IdsMembers(s, x);
      IdsMembers(t, x);
    }
  }

  /** No two entries of the bundle are the same commit. */
  ghost predicate DistinctIds(s: seq<BundleCommit>) {
    s == [] || (s[|s| - 1].id !in Ids(s[..|s| - 1]) && DistinctIds(s[..|s| - 1]))
  }

  ghost predicate ParentIs(c: BundleCommit, p: BundleCommit) {
    c.parent == Some(p.id) && p.id != ""
  }

  /** Whatever parents the bundle holds are shallower than their children. */
  ghost predicate ParentsShallower(s: seq<BundleCommit>) {
    forall c, p :: c in s && p in s && ParentIs(c, p) ==> p.depth < c.depth
  }

  ghost predicate ObjectEvents(s: seq<BundleCommit>) {
    forall c :: c in s ==> forall e :: e in c.events ==> IsObjectText(e.json)
  }

  ghost predicate WellFormed(s: seq<BundleCommit>) {
    DistinctIds(s) && ParentsShallower(s) && ObjectEvents(s)
  }

  /** What `verify_bundle` checks first: every stored hash is the recomputed one. */
  ghost predicate Accepts(h: Digest, s: seq<BundleCommit>) {
    forall c :: c in s ==> c.id in ChainOf(h, s) && ChainOf(h, s)[c.id] == c.hash
  }

  lemma ByDepthOrders()
    ensures TotalPreorder(ByDepth)
  {}

  lemma ByPlaceOrders()
    ensures TotalPreorder(ByPlace)
  {}

  lemma {:induction false} DistinctApart(s: seq<BundleCommit>, c: BundleCommit, d: BundleCommit)
    requires DistinctIds(s) && c in s && d in s && c.id == d.id
    ensures c == d
  {
    var init, last := s[..|s| - 1], s[|s| - 1];
    assert s == init + [last];
    if c in init && d in init {
      DistinctApart(init, c, d);
    } else if c in init {
      IdIsListed(init, c);
    } else if d in init {
      IdIsListed(init, d);
    }
  }

  lemma {:induction false} DistinctByCount(s: seq<BundleCommit>)
    ensures DistinctIds(s) <==>
            (NoDup(s) && forall c, d :: c in s && d in s && c.id == d.id ==> c == d)
  {
    if s != [] {
      var init, last := s[..|s| - 1], s[|s| - 1];
      assert s == init + [last];
      DistinctByCount(init);
      if DistinctIds(s) {
        if last in init { IdIsListed(init, last); }
        forall c, d | c in s && d in s && c.id == d.id ensures c == d { DistinctApart(s, c, d); }
      } else if NoDup(s) && forall c, d :: c in s && d in s && c.id == d.id ==> c == d {
        assert last in s;
        IdsMembers(init, last.id);
      }
    }
  }

  lemma DistinctPermuted(s: seq<BundleCommit>, t: seq<BundleCommit>)
    requires multiset(s) == multiset(t) && DistinctIds(s)
    ensures DistinctIds(t)
  {
    DistinctByCount(s);
    DistinctByCount(t);
    PermutedNoDup(s, t);
    PermutedMembers(s, t);
  }

  /** The commits in order of depth are the same commits. */
  lemma SortedCommits(s: seq<BundleCommit>)
    ensures Sorted(ByDepth, Sort(ByDepth, s))
    ensures multiset(Sort(ByDepth, s)) == multiset(s)
    ensures forall c :: c in Sort(ByDepth, s) <==> c in s
    ensures DistinctIds(s) ==> DistinctIds(Sort(ByDepth, s))
  {
    ByDepthOrders();
    SortIsStable(ByDepth, s);
    SortContents(ByDepth, s);
    PermutedMembers(Sort(ByDepth, s), s);
    if DistinctIds(s) { DistinctPermuted(s, Sort(ByDepth, s)); }
  }

  lemma TextsOfObjects(s: seq<BundleCommit>, c: BundleCommit)
    requires ObjectEvents(s) && c in s
    ensures AllObjects(Texts(c))
  {
    var ordered := Sort(ByPlace, c.events);
    SortContents(ByPlace, c.events);
    PermutedMembers(ordered, c.events);
    forall t | t in Texts(c) ensures IsObjectText(t) {
      var i :| 0 <= i < |Texts(c)| && Texts(c)[i] == t;
      assert ordered[i] in c.events;
    }
  }

  lemma {:induction false} ChainKeys(h: Digest, s: seq<BundleCommit>)
    ensures ChainIn(h, s).Keys == Ids(s)
  {
    if s != [] {
      ChainKeys(h, s[..|s| - 1]);
      assert s == s[..|s| - 1] + [s[|s| - 1]];
    }
  }

  lemma {:induction false} ChainGivesDigests(h: Digest, s: seq<BundleCommit>)
    requires GivesDigests(h)
    ensures forall x :: x in ChainIn(h, s) ==> LooksLikeDigest(ChainIn(h, s)[x])
  {
    if s != [] { ChainGivesDigests(h, s[..|s| - 1]); }
  }

  // --- the chain by its equations ---

  /** Every commit's hash is the digest of its parent's hash and its events. */
  ghost predicate Solves(h: Digest, s: seq<BundleCommit>, m: map<Id, string>) {
    m.Keys == Ids(s) && forall c :: c in s ==> c.id in m && m[c.id] == h(Hashed(m, c))
  }

  /** No commit comes before its parent. */
  ghost predicate ParentsFirst(s: seq<BundleCommit>) {
    s == [] || (ParentsFirst(s[..|s| - 1]) &&
      forall c :: c in s ==> !ParentIs(c, s[|s| - 1]))
  }

  lemma {:induction false} ShallowIsFirst(s: seq<BundleCommit>)
    requires Sorted(ByDepth, s) && ParentsShallower(s)
    ensures ParentsFirst(s)
  {
    if s != [] {
      assert s == s[..|s| - 1] + [s[|s| - 1]];
      ShallowIsFirst(s[..|s| - 1]);
      forall c | c in s ensures !ParentIs(c, s[|s| - 1]) {
        var i :| 0 <= i < |s| && s[i] == c;
        assert i == |s| - 1 || ByDepth(s[i], s[|s| - 1]);
      }
    }
  }

  lemma PutBack(m: map<Id, string>, x: Id)
    requires x in m
    ensures m == (m - {x})[x := m[x]]
  {}

  lemma LaterChangesNothing(h: Digest, m: map<Id, string>, c: BundleCommit, d: BundleCommit, x: string)
    requires !ParentIs(c, d)
    ensures Hashed(m[d.id := x], c) == Hashed(m, c)
  {}

  lemma SolvedStill(h: Digest, s: seq<BundleCommit>, m: map<Id, string>, last: BundleCommit, x: string, c: BundleCommit)
    requires last.id !in Ids(s) && Solves(h, s, m) && c in s && !ParentIs(c, last)
    ensures c.id in m && m[last.id := x][c.id] == h(Hashed(m[last.id := x], c))
  {
    LaterChangesNothing(h, m, c, last, x);
    IdIsListed(s, c);
  }

  lemma SolutionExtended(h: Digest, s: seq<BundleCommit>, m: map<Id, string>, last: BundleCommit)
    requires last.id !in Ids(s) && Solves(h, s, m)
    requires forall c :: c in s + [last] ==> !ParentIs(c, last)
    ensures Solves(h, s + [last], m[last.id := h(Hashed(m, last))])
  {
    var x := h(Hashed(m, last));
    var m' := m[last.id := x];
    assert (s + [last])[..|s|] == s && last in s + [last];
    LaterChangesNothing(h, m, last, last, x);
    forall c | c in s + [last] ensures c.id in m' && m'[c.id] == h(Hashed(m', c)) {
      if c in s { SolvedStill(h, s, m, last, x, c); }
    }
  }

  lemma {:induction false} ChainSolves(h: Digest, s: seq<BundleCommit>)
    requires DistinctIds(s) && ParentsFirst(s)
    ensures Solves(h, s, ChainIn(h, s))
  {
    if s != [] {
      var init, last := s[..|s| - 1], s[|s| - 1];
      assert s == init + [last];
      ChainSolves(h, init);
      SolutionExtended(h, init, ChainIn(h, init), last);
    }
  }

  /** Taking the last commit out of a solution. */
  lemma WithoutLast(h: Digest, s: seq<BundleCommit>, m: map<Id, string>, m': map<Id, string>)
    requires s != [] && ParentsFirst(s) && Solves(h, s, m)
    requires m' == m - {s[|s| - 1].id}
    ensures forall c :: c in s ==> Hashed(m', c) == Hashed(m, c)
  {
    var last := s[|s| - 1];
    PutBack(m, last.id);
    forall c | c in s ensures Hashed(m', c) == Hashed(m, c) {
      LaterChangesNothing(h, m', c, last, m[last.id]);
    }
  }

  lemma SolutionOfInit(h: Digest, s: seq<BundleCommit>, m: map<Id, string>, m': map<Id, string>)
    requires s != [] && DistinctIds(s) && Solves(h, s, m)
    requires m' == m - {s[|s| - 1].id}
    requires forall c :: c in s ==> Hashed(m', c) == Hashed(m, c)
    ensures Solves(h, s[..|s| - 1], m')
    ensures m == m'[s[|s| - 1].id := h(Hashed(m', s[|s| - 1]))]
  {
    var init, last := s[..|s| - 1], s[|s| - 1];
    PutBack(m, last.id);
    forall c | c in init ensures c in s && c.id in Ids(init) { IdIsListed(init, c); }
    assert last in s;
  }

  lemma {:induction false} SolutionIsChain(h: Digest, s: seq<BundleCommit>, m: map<Id, string>)
    requires DistinctIds(s) && ParentsFirst(s) && Solves(h, s, m)
    ensures m == ChainIn(h, s)
  {
    if s != [] {
      var m' := m - {s[|s| - 1].id};
      WithoutLast(h, s, m, m');
      SolutionOfInit(h, s, m, m');
      SolutionIsChain(h, s[..|s| - 1], m');
    }
  }

  /** The chain of a well-formed bundle is the one solution of its equations, which do not
      mention the order the commits are listed in. */
  lemma ChainIsTheSolution(h: Digest, s: seq<BundleCommit>, m: map<Id, string>)
    requires DistinctIds(s) && ParentsShallower(s)
    ensures m == ChainOf(h, s) <==> Solves(h, s, m)
  {
    var t := Sort(ByDepth, s);
    SortedCommits(s);
    ShallowIsFirst(t);
    ChainSolves(h, t);
    IdsPermuted(s, t);
    if Solves(h, s, m) {
      SolutionIsChain(h, t, m);
    }
  }

  lemma ListingOrderDoesNotMatter(h: Digest, s: seq<BundleCommit>, t: seq<BundleCommit>)
    requires DistinctIds(s) && ParentsShallower(s)
    requires multiset(s) == multiset(t)
    ensures ChainOf(h, s) == ChainOf(h, t)
  {
    PermutedMembers(s, t);
    DistinctPermuted(s, t);
    IdsPermuted(s, t);
    ChainIsTheSolution(h, s, ChainOf(h, s));
    ChainIsTheSolution(h, t, ChainOf(h, s));
  }

  /** Nor does the order events are listed in, when no two claim the same place. */
  lemma EventOrderDoesNotMatter(c: BundleCommit, d: BundleCommit)
    requires multiset(c.events) == multiset(d.events)
    requires forall e, f :: e in c.events && f in c.events && e.place == f.place ==> e == f
    ensures Texts(c) == Texts(d)
  {
    ByPlaceOrders();
    var s, t := Sort(ByPlace, c.events), Sort(ByPlace, d.events);
    SortIsStable(ByPlace, c.events);
    SortIsStable(ByPlace, d.events);
    SortContents(ByPlace, c.events);
    SortContents(ByPlace, d.events);
    PermutedMembers(s, c.events);
    SortedUnique(ByPlace, s, t);
  }

  // --- one commit's hash ---

  lemma {:induction false} ConcatOneMore(texts: seq<string>, more: string)
    ensures Concat(texts + [more]) == Concat(texts) + more
  {
    if texts == [] {
      assert [more][1..] == [] && Concat([more]) == more + Concat([]);
    } else {
      assert (texts + [more])[1..] == texts[1..] + [more];
      ConcatOneMore(texts[1..], more);
    }
  }

  /** The texts of these events, one after the other. */
  function Written(events: seq<BundleEvent>): string {
    if events == [] then "" else Written(events[..|events| - 1]) + events[|events| - 1].json
  }

  lemma {:induction false} ConcatIsWritten(events: seq<BundleEvent>)
    ensures Concat(Jsons(events)) == Written(events)
  {
    if events != [] {
      var init, last := events[..|events| - 1], events[|events| - 1];
      ConcatIsWritten(init);
      assert Jsons(events) == Jsons(init) + [last.json];
      ConcatOneMore(Jsons(init), last.json);
    }
  }

  /** Every commit's hash is taken over its parent's hash, or nothing if the bundle does not hold the
      parent, followed by its events' texts in order of place, equal places as listed. */
  lemma HashOfEach(h: Digest, s: seq<BundleCommit>, c: BundleCommit) returns (events: seq<BundleEvent>)
    requires DistinctIds(s) && ParentsShallower(s) && c in s
    ensures var m := ChainOf(h, s);
      && c.id in m && multiset(events) == multiset(c.events)
      && (forall i, j :: 0 <= i < j < |events| ==> events[i].place <= events[j].place)
      && (forall e :: Ties(ByPlace, events, e) == Ties(ByPlace, c.events, e))
      && (forall p :: p in s && ParentIs(c, p) ==> p.id in m && m[c.id] == h(m[p.id] + Written(events)))
      && ((forall p :: p in s ==> !ParentIs(c, p)) ==> m[c.id] == h(Written(events)))
  {
    var m := ChainOf(h, s);
    events := Sort(ByPlace, c.events);
    ChainIsTheSolution(h, s, m);
    ByPlaceOrders();
    SortIsStable(ByPlace, c.events);
    SortContents(ByPlace, c.events);
    ConcatIsWritten(events);
    IdsMembers(s, c.id);
    forall p | p in s && ParentIs(c, p) ensures p.id in m && m[c.id] == h(m[p.id] + Written(events)) {
      IdsMembers(s, p.id);
    }
    if forall p :: p in s ==> !ParentIs(c, p) {
      if c.parent.Some? && c.parent.value != "" { IdsMembers(s, c.parent.value); }
      assert "" + Written(events) == Written(events);
    }
  }
}
