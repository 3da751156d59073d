/** Which commits of an accepted bundle can have their events changed under the stored hashes. */
module Tampering {
  import opened Common
  import opened StableSort
  import opened CommitHash
  import opened Chain
  import opened Integrity

  // --- commits in order of depth ---

  /** No commit after `k` and before `n` has its id. */
  predicate LastOfId(s: seq<BundleCommit>, k: nat, n: nat)
    requires k < n <= |s|
  {
    forall m :: k < m < n ==> s[m].id != s[k].id
  }

  /** The hash of commit `k` is what commit `j` finds under its parent's id. */
  ghost predicate Reads(s: seq<BundleCommit>, k: nat, j: nat) {
    k < j < |s| && ParentIs(s[j], s[k]) && LastOfId(s, k, j)
  }

  /** No later commit has its id, or some live commit reads its hash. */
  ghost predicate Live(s: seq<BundleCommit>, k: nat)
    requires k < |s|
    decreases |s| - k
  {
    LastOfId(s, k, |s|) || exists j :: k < j < |s| && Reads(s, k, j) && Live(s, j)
  }

  ghost predicate AllLive(s: seq<BundleCommit>) {
    forall k :: 0 <= k < |s| ==> Live(s, k)
  }

  /** Nothing but events differs. */
  predicate Alikes(s: seq<BundleCommit>, t: seq<BundleCommit>) {
    |s| == |t| && forall k :: 0 <= k < |s| ==> Alike(s[k], t[k])
  }

  lemma {:induction false} LiveAlike(s: seq<BundleCommit>, t: seq<BundleCommit>, k: nat)
    requires Alikes(s, t) && k < |s|
    ensures Live(s, k) <==> Live(t, k)
    decreases |s| - k
  {
    assert LastOfId(s, k, |s|) <==> LastOfId(t, k, |t|);
    forall j | k < j < |s| ensures Reads(s, k, j) <==> Reads(t, k, j) {
      assert LastOfId(s, k, j) <==> LastOfId(t, k, j);
    }
    forall j | k < j < |s| ensures Live(s, j) <==> Live(t, j) { LiveAlike(s, t, j); }
  }

  /** What is hashed for commit `k`. */
  function TextAt(h: Digest, s: seq<BundleCommit>, k: nat): string
    requires k < |s|
  {
    Hashed(ChainIn(h, s[..k]), s[k])
  }

  lemma HashAdded(h: Digest, s: seq<BundleCommit>, n: nat)
    requires 0 < n <= |s|
    ensures ChainIn(h, s[..n]) == ChainIn(h, s[..n - 1])[s[n - 1].id := h(TextAt(h, s, n - 1))]
  {
    assert s[..n][..n - 1] == s[..n - 1];
  }

  lemma {:induction false} HashFound(h: Digest, s: seq<BundleCommit>, k: nat, n: nat)
    requires k < n <= |s| && LastOfId(s, k, n)
    ensures s[k].id in ChainIn(h, s[..n]) && ChainIn(h, s[..n])[s[k].id] == h(TextAt(h, s, k))
    decreases n
  {
    HashAdded(h, s, n);
    if k < n - 1 { HashFound(h, s, k, n - 1); }
  }

  lemma {:induction false} HasLast(s: seq<BundleCommit>, n: nat, x: Id) returns (k: nat)
    requires n <= |s| && x in Ids(s[..n])
    ensures k < n && s[k].id == x && LastOfId(s, k, n)
    decreases n
  {
    assert s[..n][..n - 1] == s[..n - 1];
    if s[n - 1].id == x { k := n - 1; } else { k := HasLast(s, n - 1, x); }
  }

  /** What commit `j` finds under its parent's id: nothing, or the hash of the commit it reads. */
  lemma ParentFound(h: Digest, s: seq<BundleCommit>, j: nat) returns (k: Option<nat>)
    requires j < |s|
    ensures k.None? ==> ParentHash(ChainIn(h, s[..j]), s[j]) == None
    ensures k.Some? ==> Reads(s, k.value, j)
    ensures k.Some? ==> ParentHash(ChainIn(h, s[..j]), s[j]) == Some(h(TextAt(h, s, k.value)))
    ensures k.None? ==> forall i: nat :: !Reads(s, i, j)
  {
    ChainKeys(h, s[..j]);
    if s[j].parent.Some? && s[j].parent.value != "" && s[j].parent.value in Ids(s[..j]) {
      var i := HasLast(s, j, s[j].parent.value);
      HashFound(h, s, i, j);
      k := Some(i);
    } else {
      k := None;
      forall i: nat ensures !Reads(s, i, j) {
        if Reads(s, i, j) {
          assert s[i] == s[..j][i];
          IdIsListed(s[..j], s[i]);
        }
      }
    }
  }

  lemma ParentRead(h: Digest, s: seq<BundleCommit>, k: nat, j: nat)
    requires Reads(s, k, j)
    ensures ParentHash(ChainIn(h, s[..j]), s[j]) == Some(h(TextAt(h, s, k)))
  {
    HashFound(h, s, k, j);
  }

  // --- live commits are pinned ---

  /** What is hashed for the live commits. */
  ghost function LiveTexts(h: Digest, s: seq<BundleCommit>): set<string> {
    set k | 0 <= k < |s| && Live(s, k) :: TextAt(h, s, k)
  }

  ghost predicate SameAt(h: Digest, s: seq<BundleCommit>, t: seq<BundleCommit>, k: nat)
    requires k < |s| && k < |t|
  {
    TextAt(h, s, k) == TextAt(h, t, k)
  }

  lemma DigestsAtParent(h: Digest, s: seq<BundleCommit>, j: nat)
    requires GivesDigests(h) && j < |s|
    ensures var p := ParentHash(ChainIn(h, s[..j]), s[j]); p.Some? ==> LooksLikeDigest(p.value)
  {
    ChainGivesDigests(h, s[..j]);
  }

  /** The same text was hashed, so it was the same events under the same parent's hash. */
  lemma SameTextSameCommit(h: Digest, s: seq<BundleCommit>, t: seq<BundleCommit>, j: nat)
    requires GivesDigests(h) && Alikes(s, t) && ObjectEvents(s) && ObjectEvents(t) && j < |s| && SameAt(h, s, t, j)
    ensures Texts(s[j]) == Texts(t[j])
    ensures ParentHash(ChainIn(h, s[..j]), s[j]) == ParentHash(ChainIn(h, t[..j]), t[j])
  {
    DigestsAtParent(h, s, j);
    DigestsAtParent(h, t, j);
    TextsOfObjects(s, s[j]);
    TextsOfObjects(t, t[j]);
    HashTextReadsBack(ParentHash(ChainIn(h, s[..j]), s[j]), Texts(s[j]),
                      ParentHash(ChainIn(h, t[..j]), t[j]), Texts(t[j]));
  }

  lemma NoTwoAlike(h: Digest, s: seq<BundleCommit>, t: seq<BundleCommit>, k: nat)
    requires NoCollision(h, LiveTexts(h, s) + LiveTexts(h, t))
    requires Alikes(s, t) && k < |s| && Live(s, k) && h(TextAt(h, s, k)) == h(TextAt(h, t, k))
    ensures SameAt(h, s, t, k)
  {
    LiveAlike(s, t, k);
    assert TextAt(h, s, k) in LiveTexts(h, s) && TextAt(h, t, k) in LiveTexts(h, t);
  }

  /** The last commit of its id is checked against the stored hash. */
  lemma LastPinned(h: Digest, s: seq<BundleCommit>, t: seq<BundleCommit>, k: nat)
    requires Alikes(s, t) && AcceptsInOrder(h, s) && AcceptsInOrder(h, t) && k < |s| && LastOfId(s, k, |s|)
    ensures h(TextAt(h, s, k)) == h(TextAt(h, t, k))
  {
    assert LastOfId(t, k, |t|);
    HashFound(h, s, k, |s|);
    HashFound(h, t, k, |t|);
    assert s[..|s|] == s && t[..|t|] == t && s[k] in s && t[k] in t;
  }

  /** And what a commit reads is part of its own text. */
  lemma ReadPinned(h: Digest, s: seq<BundleCommit>, t: seq<BundleCommit>, k: nat, j: nat)
    requires GivesDigests(h) && Alikes(s, t) && ObjectEvents(s) && ObjectEvents(t)
    requires Reads(s, k, j) && SameAt(h, s, t, j)
    ensures h(TextAt(h, s, k)) == h(TextAt(h, t, k))
  {
    SameTextSameCommit(h, s, t, j);
    assert LastOfId(t, k, j);
    ParentRead(h, s, k, j);
    ParentRead(h, t, k, j);
  }

  /** From the last commits of their ids back to the commits these read, and so on: the stored
      hashes leave only one text for each live commit. */
  lemma {:induction false} LivePinned(h: Digest, s: seq<BundleCommit>, t: seq<BundleCommit>, k: nat)
    requires GivesDigests(h) && NoCollision(h, LiveTexts(h, s) + LiveTexts(h, t))
    requires Alikes(s, t) && ObjectEvents(s) && ObjectEvents(t)
    requires AcceptsInOrder(h, s) && AcceptsInOrder(h, t)
    requires k < |s| && Live(s, k)
    ensures SameAt(h, s, t, k)
    decreases |s| - k
  {
    if LastOfId(s, k, |s|) {
      LastPinned(h, s, t, k);
    } else {
      var j :| k < j < |s| && Reads(s, k, j) && Live(s, j);
      LivePinned(h, s, t, j);
      ReadPinned(h, s, t, k, j);
    }
    NoTwoAlike(h, s, t, k);
  }

  // --- the others are not ---

  /** Nothing but the events of commit `k` differs. */
  predicate DiffersAt(s: seq<BundleCommit>, t: seq<BundleCommit>, k: nat) {
    Alikes(s, t) && forall j :: 0 <= j < |s| && j != k ==> s[j] == t[j]
  }

  lemma {:induction false} LiveUnaffected(h: Digest, s: seq<BundleCommit>, t: seq<BundleCommit>, k: nat, j: nat)
    requires k < |s| && DiffersAt(s, t, k) && !Live(s, k) && j < |s| && Live(s, j)
    ensures SameAt(h, s, t, j)
    decreases j
  {
    assert s[j] == t[j];
    var p := ParentFound(h, s, j);
    var q := ParentFound(h, t, j);
    if p.Some? {
      var i := p.value;
      assert Live(s, i);
      assert Reads(t, i, j);
      ParentRead(h, t, i, j);
      LiveUnaffected(h, s, t, k, i);
    } else if q.Some? {
      assert Reads(s, q.value, j);
    }
  }

  lemma {:induction false} AlikesIds(s: seq<BundleCommit>, t: seq<BundleCommit>)
    requires Alikes(s, t)
    ensures Ids(s) == Ids(t)
  {
    if s != [] { AlikesIds(s[..|s| - 1], t[..|t| - 1]); }
  }

  lemma DeadChangesNothing(h: Digest, s: seq<BundleCommit>, t: seq<BundleCommit>, k: nat)
    requires k < |s| && DiffersAt(s, t, k) && !Live(s, k)
    ensures ChainIn(h, s) == ChainIn(h, t)
  {
    ChainKeys(h, s);
    ChainKeys(h, t);
    AlikesIds(s, t);
    assert s[..|s|] == s && t[..|t|] == t;
    forall x | x in Ids(s) ensures ChainIn(h, s)[x] == ChainIn(h, t)[x] {
      var i := HasLast(s, |s|, x);
      assert LastOfId(t, i, |t|);
      HashFound(h, s, i, |s|);
      HashFound(h, t, i, |t|);
      LiveUnaffected(h, s, t, k, i);
    }
  }

  lemma DeadKeepsLiveTexts(h: Digest, s: seq<BundleCommit>, t: seq<BundleCommit>, k: nat)
    requires k < |s| && DiffersAt(s, t, k) && !Live(s, k)
    ensures LiveTexts(h, t) == LiveTexts(h, s)
  {
    forall j | 0 <= j < |s| ensures Live(s, j) <==> Live(t, j) {
      LiveAlike(s, t, j);
    }
    forall j | 0 <= j < |s| && Live(s, j) ensures TextAt(h, s, j) == TextAt(h, t, j) {
      LiveUnaffected(h, s, t, k, j);
    }
  }

  /** Some other events for a commit. */
  lemma OtherEvents(c: BundleCommit) returns (d: BundleCommit)
    ensures Alike(c, d) && Texts(c) != Texts(d)
    ensures forall e :: e in d.events ==> IsObjectText(e.json)
  {
    OneEvent();
    d := c.(events := if Texts(c) == [] then [BundleEvent(0, "{}")] else []);
  }

  // --- listings ---

  lemma AlikeKeepsDepth()
    ensures Respects(ByDepth, Alike)
  {}

  lemma {:induction false} Uninsert(s: seq<BundleCommit>, x: BundleCommit, t: seq<BundleCommit>)
    returns (s': seq<BundleCommit>, y: BundleCommit)
    requires Pairwise(Alike, Insert(ByDepth, s, x), t)
    ensures Pairwise(Alike, s, s') && Alike(x, y) && Insert(ByDepth, s', y) == t
  {
    var last := t[|t| - 1];
    if s == [] || ByDepth(s[|s| - 1], x) {
      assert (s + [x])[..|s|] == s;
      s', y := t[..|t| - 1], last;
    } else {
      var front := Insert(ByDepth, s[..|s| - 1], x);
      assert (front + [s[|s| - 1]])[..|front|] == front;
      var rest;
      rest, y := Uninsert(s[..|s| - 1], x, t[..|t| - 1]);
      s' := rest + [last];
      assert s'[..|rest|] == rest;
    }
    SplitLast(t);
  }

  lemma OneMoreListed(s: seq<BundleCommit>, y: BundleCommit)
    ensures Sort(ByDepth, s + [y]) == Insert(ByDepth, Sort(ByDepth, s), y)
  {
    assert (s + [y])[..|s|] == s;
  }

  lemma OneMoreRewritten(s: seq<BundleCommit>, t: seq<BundleCommit>, y: BundleCommit)
    requires s != [] && Rewritten(s[..|s| - 1], t) && Alike(s[|s| - 1], y)
    ensures Rewritten(s, t + [y])
  {
    assert (t + [y])[..|t|] == t;
  }

  /** A rewriting of the commits in order of depth is one of the bundle as it is listed. */
  lemma {:induction false} Unsort(s: seq<BundleCommit>, t: seq<BundleCommit>) returns (s': seq<BundleCommit>)
    requires Rewritten(Sort(ByDepth, s), t)
    ensures Rewritten(s, s') && Sort(ByDepth, s') == t
  {
    if s == [] {
      s' := [];
    } else {
      var init, x := s[..|s| - 1], s[|s| - 1];
      assert Sort(ByDepth, s) == Insert(ByDepth, Sort(ByDepth, init), x);
      var u, y := Uninsert(Sort(ByDepth, init), x, t);
      var rest := Unsort(init, u);
      s' := rest + [y];
      OneMoreListed(rest, y);
      OneMoreRewritten(s, rest, y);
    }
  }

  lemma ObjectsSorted(s: seq<BundleCommit>)
    ensures ObjectEvents(Sort(ByDepth, s)) <==> ObjectEvents(s)
  {
    SortedCommits(s);
  }

  lemma AcceptedSorted(h: Digest, s: seq<BundleCommit>)
    ensures AcceptsInOrder(h, Sort(ByDepth, s)) <==> Accepts(h, s)
  {
    SortedCommits(s);
  }

  lemma RewrittenSorted(s: seq<BundleCommit>, t: seq<BundleCommit>)
    requires Rewritten(s, t)
    ensures Alikes(Sort(ByDepth, s), Sort(ByDepth, t))
  {
    AlikeKeepsDepth();
    SortPairwise(ByDepth, Alike, s, t);
    PairwiseAt(Alike, Sort(ByDepth, s), Sort(ByDepth, t));
  }

  /** Every commit, in order of depth, still has the same events. A rewriting keeps the depths. */
  ghost predicate KeepsEvents(s: seq<BundleCommit>, t: seq<BundleCommit>) {
    var s', t' := Sort(ByDepth, s), Sort(ByDepth, t);
    |s'| == |t'| && forall k :: 0 <= k < |s'| ==> Texts(s'[k]) == Texts(t'[k])
  }

  /** A rewriting that keeps the stored hashes, is accepted, and meets no collision among what is
      hashed for live commits. */
  ghost predicate PassesAs(h: Digest, s: seq<BundleCommit>, t: seq<BundleCommit>) {
    && Rewritten(s, t) && ObjectEvents(t) && Accepts(h, t)
    && NoCollision(h, LiveTexts(h, Sort(ByDepth, s)) + LiveTexts(h, Sort(ByDepth, t)))
  }

  lemma AllLiveKeepsEvents(h: Digest, s: seq<BundleCommit>, t: seq<BundleCommit>)
    requires GivesDigests(h) && Accepts(h, s) && ObjectEvents(s) && AllLive(Sort(ByDepth, s)) && PassesAs(h, s, t)
    ensures KeepsEvents(s, t)
  {
    var s', t' := Sort(ByDepth, s), Sort(ByDepth, t);
    ObjectsSorted(s);
    ObjectsSorted(t);
    AcceptedSorted(h, s);
    AcceptedSorted(h, t);
    RewrittenSorted(s, t);
    forall k | 0 <= k < |s'| ensures Texts(s'[k]) == Texts(t'[k]) {
      LivePinned(h, s', t', k);
      SameTextSameCommit(h, s', t', k);
    }
  }

  lemma DeadStaysAccepted(h: Digest, s: seq<BundleCommit>, t: seq<BundleCommit>, k: nat)
    requires k < |s| && DiffersAt(s, t, k) && !Live(s, k) && AcceptsInOrder(h, s)
    ensures AcceptsInOrder(h, t)
  {
    DeadChangesNothing(h, s, t, k);
    forall c | c in t ensures c.id in ChainIn(h, t) && ChainIn(h, t)[c.id] == c.hash {
      var i :| 0 <= i < |t| && t[i] == c;
      assert s[i] in s && Alike(s[i], c);
    }
  }

  /** Other events in place of those of commit `k`. */
  lemma Altered(s: seq<BundleCommit>, k: nat) returns (t: seq<BundleCommit>)
    requires ObjectEvents(s) && k < |s|
    ensures DiffersAt(s, t, k) && ObjectEvents(t) && Rewritten(s, t) && Texts(s[k]) != Texts(t[k])
  {
    var d := OtherEvents(s[k]);
    t := s[k := d];
    PairwiseAt(Alike, s, t);
    forall c | c in t ensures forall e :: e in c.events ==> IsObjectText(e.json) {
      var i :| 0 <= i < |t| && t[i] == c;
      if i != k { assert s[i] in s; }
    }
  }

  /** In an accepted bundle with a commit that is not live, its events change unnoticed. */
  lemma DeadGoesUnchecked(h: Digest, s: seq<BundleCommit>, k: nat) returns (t: seq<BundleCommit>)
    requires Accepts(h, s) && ObjectEvents(s) && NoCollision(h, LiveTexts(h, Sort(ByDepth, s)))
    requires k < |Sort(ByDepth, s)| && !Live(Sort(ByDepth, s), k)
    ensures PassesAs(h, s, t) && !KeepsEvents(s, t)
  {
    var s' := Sort(ByDepth, s);
    ObjectsSorted(s);
    AcceptedSorted(h, s);
    var t' := Altered(s', k);
    t := Unsort(s, t');
    ObjectsSorted(t);
    AcceptedSorted(h, t);
    DeadStaysAccepted(h, s', t', k);
    DeadKeepsLiveTexts(h, s', t', k);
    assert LiveTexts(h, s') + LiveTexts(h, t') == LiveTexts(h, s');
  }

  /** For an accepted bundle, and a digest that does not collide on what is hashed for its live
      commits: every accepted rewriting leaves every commit its events exactly when every commit,
      in order of depth, is live. */
  lemma PinnedIffAllLive(h: Digest, s: seq<BundleCommit>)
    requires GivesDigests(h) && Accepts(h, s) && ObjectEvents(s)
    requires NoCollision(h, LiveTexts(h, Sort(ByDepth, s)))
    ensures AllLive(Sort(ByDepth, s)) <==> forall t :: PassesAs(h, s, t) ==> KeepsEvents(s, t)
  {
    if AllLive(Sort(ByDepth, s)) {
      forall t | PassesAs(h, s, t) ensures KeepsEvents(s, t) {
        AllLiveKeepsEvents(h, s, t);
      }
    } else {
      var k: int :| 0 <= k < |Sort(ByDepth, s)| && !Live(Sort(ByDepth, s), k);
      var t := DeadGoesUnchecked(h, s, k);
    }
  }

  /** Distinct ids make every commit live. */
  lemma DistinctAllLive(s: seq<BundleCommit>)
    requires DistinctIds(s)
    ensures AllLive(Sort(ByDepth, s))
  {
    var s' := Sort(ByDepth, s);
    SortedCommits(s);
    forall k, m | 0 <= k < m < |s'| ensures s'[m].id != s'[k].id { DistinctAt(s', k, m); }
    forall k | 0 <= k < |s'| ensures Live(s', k) { assert LastOfId(s', k, |s'|); }
  }

  lemma {:induction false} DistinctAt(s: seq<BundleCommit>, k: nat, m: nat)
    requires DistinctIds(s) && k < m < |s|
    ensures s[k].id != s[m].id
  {
    var init := s[..|s| - 1];
    if m == |s| - 1 {
      assert init[k] == s[k];
      IdIsListed(init, s[k]);
    } else {
      DistinctAt(init, k, m);
    }
  }
}
