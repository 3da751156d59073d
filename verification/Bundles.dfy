/** Export bundles: stamping one, verifying one, and what a verified one guarantees. */
module Bundles {
  import opened Common
  import opened StableSort
  import opened CommitHash
  import opened Chain
  import opened Integrity
  import opened Manifest

  /** How verification ends: which stored hash does not match, or that the manifest does not. */
  datatype Verdict = Intact | ChainBroken(at: nat) | ManifestAltered

  function Restamped(s: seq<BundleCommit>, hashes: map<Id, string>): seq<BundleCommit>
    requires forall c :: c in s ==> c.id in hashes
  {
    seq(|s|, i requires 0 <= i < |s| => s[i].(hash := hashes[s[i].id]))
  }

  lemma ChainCovers(h: Digest, s: seq<BundleCommit>)
    ensures forall c :: c in s ==> c.id in ChainOf(h, s)
  {
    SortedCommits(s);
    ChainKeys(h, Sort(ByDepth, s));
    forall c | c in s ensures c.id in ChainOf(h, s) { IdIsListed(Sort(ByDepth, s), c); }
  }

  /** The commits as `stamp_chain` leaves them. */
  function StampedCommits(h: Digest, s: seq<BundleCommit>): seq<BundleCommit> {
    ChainCovers(h, s);
    Restamped(s, ChainOf(h, s))
  }

  function Stamped(h: Digest, b: Bundle): Bundle {
    var b' := b.(commits := StampedCommits(h, b.commits));
    b'.(manifest := h(ManifestText(b')))
  }

  ghost predicate Verifies(h: Digest, b: Bundle) {
    Accepts(h, b.commits) && b.manifest == h(ManifestText(b))
  }

  method CommitLines(name: string, cs: seq<Stamp>) returns (text: string)
    ensures text == name + Barred(AllTokens(CommitEntries(cs)))
  {
    text := name;
    for i := 0 to |cs|
      invariant text == name + Barred(AllTokens(CommitEntries(cs[..i])))
    {
      EntryAppend(name, CommitEntries(cs[..i]), CommitEntry(cs[i]));
      CommitTokens(cs[i]);
      assert CommitEntries(cs[..i + 1]) == CommitEntries(cs[..i]) + [CommitEntry(cs[i])];
      text := text + ("|c|" + cs[i].id + "|" + cs[i].hash);
    }
    assert cs[..|cs|] == cs;
  }

  method BranchLines(start: string, bs: seq<BundleBranch>, ghost name: string, ghost before: seq<Entry>)
    returns (text: string)
    requires start == name + Barred(AllTokens(before))
    ensures text == name + Barred(AllTokens(before + BranchEntries(bs)))
  {
    text := start;
    assert before + BranchEntries(bs[..0]) == before;
    for i := 0 to |bs|
      invariant text == name + Barred(AllTokens(before + BranchEntries(bs[..i])))
    {
      var b := bs[i];
      EntryAppend(name, before + BranchEntries(bs[..i]), BranchEntry(b));
      BranchTokens(b);
      assert BranchEntries(bs[..i + 1]) == BranchEntries(bs[..i]) + [BranchEntry(b)];
      Regroup(before, BranchEntries(bs[..i]), [BranchEntry(b)]);
      text := text + ("|b|" + b.id + "|" + b.name + "|" + Rendered(b.head) + "|" + Rendered(b.forkedFrom));
    }
    assert bs[..|bs|] == bs;
  }

  method MarkerLines(start: string, ms: seq<BundleMarker>, ghost name: string, ghost before: seq<Entry>)
    returns (text: string)
    requires start == name + Barred(AllTokens(before))
    ensures text == name + Barred(AllTokens(before + MarkerEntries(ms)))
  {
    text := start;
    assert before + MarkerEntries(ms[..0]) == before;
    for i := 0 to |ms|
      invariant text == name + Barred(AllTokens(before + MarkerEntries(ms[..i])))
    {
      var m := ms[i];
      EntryAppend(name, before + MarkerEntries(ms[..i]), MarkerEntry(m));
      MarkerTokens(m);
      assert MarkerEntries(ms[..i + 1]) == MarkerEntries(ms[..i]) + [MarkerEntry(m)];
      Regroup(before, MarkerEntries(ms[..i]), [MarkerEntry(m)]);
      text := text + ("|m|" + m.id + "|" + m.name + "|" + m.commit);
    }
    assert ms[..|ms|] == ms;
  }

  class WorldBundle {
    var name: string
    var commits: seq<BundleCommit>
    var branches: seq<BundleBranch>
    var markers: seq<BundleMarker>
    var manifest: string

    constructor (b: Bundle)
      ensures State() == b
    {
      name, commits, branches, markers, manifest := b.name, b.commits, b.branches, b.markers, b.manifest;
    }

    function State(): Bundle
      reads this
    {
      Bundle(name, commits, branches, markers, manifest)
    }

    method ManifestDigest(h: Digest) returns (digest: string)
      ensures digest == h(ManifestText(State()))
    {
      var text := CommitLines(name, Sort(StampById, Stamps(commits)));
      ghost var entries := CommitEntries(Sort(StampById, Stamps(commits)));
      text := BranchLines(text, Sort(BranchById, branches), name, entries);
      entries := entries + BranchEntries(Sort(BranchById, branches));
      text := MarkerLines(text, Sort(MarkerById, markers), name, entries);
      digest := h(text);
    }

    method StampChain(h: Digest)
      modifies this
      ensures State() == Stamped(h, old(State()))
    {
      var hashes := ChainHashes(h, commits);
      ChainCovers(h, commits);
      ghost var listed := commits;
      for i := 0 to |commits|
        invariant |commits| == |listed| && unchanged(`name, `branches, `markers, `manifest)
        invariant forall k :: i <= k < |listed| ==> commits[k] == listed[k]
        invariant forall k :: 0 <= k < i ==>
                    listed[k].id in hashes && commits[k] == listed[k].(hash := hashes[listed[k].id])
      {
        assert listed[i] in listed;
        commits := commits[i := commits[i].(hash := hashes[commits[i].id])];
      }
      assert commits == StampedCommits(h, listed);
      manifest := ManifestDigest(h);
    }

    method VerifyBundle(h: Digest) returns (r: Verdict)
      ensures r.Intact? <==> Verifies(h, State())
      ensures r.ManifestAltered? ==> Accepts(h, commits)
      ensures r.ChainBroken? ==>
                r.at < |commits| && FirstMismatch(ChainOf(h, commits), commits, r.at)
    {
      var hashes := ChainHashes(h, commits);
      ChainCovers(h, commits);
      for i := 0 to |commits|
        invariant forall k :: 0 <= k < i ==> Matches(hashes, commits[k])
      {
        assert commits[i] in commits;
        if hashes[commits[i].id] != commits[i].hash {
          MismatchRefuses(h, commits, i);
          return ChainBroken(i);
        }
      }
      AllMatch(h, commits);
      var digest := ManifestDigest(h);
      r := if digest != manifest then ManifestAltered else Intact;
    }
  }

  predicate Matches(hashes: map<Id, string>, c: BundleCommit) {
    c.id in hashes && hashes[c.id] == c.hash
  }

  predicate FirstMismatch(hashes: map<Id, string>, s: seq<BundleCommit>, at: nat)
    requires at < |s|
  {
    !Matches(hashes, s[at]) && forall k :: 0 <= k < at ==> Matches(hashes, s[k])
  }

  lemma AllMatch(h: Digest, s: seq<BundleCommit>)
    requires forall k :: 0 <= k < |s| ==> Matches(ChainOf(h, s), s[k])
    ensures Accepts(h, s)
  {}

  lemma MismatchRefuses(h: Digest, s: seq<BundleCommit>, i: nat)
    requires i < |s| && !Matches(ChainOf(h, s), s[i])
    ensures !Accepts(h, s)
  {
    assert s[i] in s;
  }

  // --- stamping ---

  predicate SameButHash(c: BundleCommit, d: BundleCommit) {
    d == c.(hash := d.hash)
  }

  /** Stored hashes play no part in computing hashes. */
  lemma {:induction false} ChainIgnoresHashes(h: Digest, s: seq<BundleCommit>, t: seq<BundleCommit>)
    requires Pairwise(SameButHash, s, t)
    ensures ChainIn(h, s) == ChainIn(h, t)
  {
    if s != [] { ChainIgnoresHashes(h, s[..|s| - 1], t[..|t| - 1]); }
  }

  lemma StampingKeepsChain(h: Digest, s: seq<BundleCommit>)
    ensures ChainOf(h, StampedCommits(h, s)) == ChainOf(h, s)
  {
    var t := StampedCommits(h, s);
    PairwiseAt(SameButHash, s, t);
    SortPairwise(ByDepth, SameButHash, s, t);
    ChainIgnoresHashes(h, Sort(ByDepth, s), Sort(ByDepth, t));
  }

  /** Every stamped bundle verifies, whatever was in it. */
  lemma StampedVerifies(h: Digest, b: Bundle)
    ensures Verifies(h, Stamped(h, b))
  {
    StampingKeepsChain(h, b.commits);
    ChainCovers(h, b.commits);
    var t := StampedCommits(h, b.commits);
    forall c | c in t ensures Matches(ChainOf(h, t), c) {
      var i :| 0 <= i < |t| && t[i] == c;
      assert b.commits[i] in b.commits;
    }
  }

  /** Stamping is the one way to set the hashes of a bundle so that it verifies. */
  lemma VerifiedIsStamped(h: Digest, b: Bundle)
    ensures Verifies(h, b) <==> b == Stamped(h, b)
  {
    ChainCovers(h, b.commits);
    StampedVerifies(h, b);
    if Verifies(h, b) {
      assert b.commits == StampedCommits(h, b.commits);
    }
  }

  // --- what verification pins down ---

  ghost predicate Sealed(h: Digest, b: Bundle) {
    Verifies(h, b) && WellFormed(b.commits) && DistinctlyNamed(b) && Clean(b)
  }

  /** Everything `verify_bundle` feeds to the digest. */
  ghost function AllFed(h: Digest, b: Bundle): set<string> {
    AllHashed(h, b.commits) + {ManifestText(b)}
  }

  lemma SameStampSameHash(a: Bundle, b: Bundle, c: BundleCommit, d: BundleCommit)
    requires SameStructure(a, b) && DistinctIds(b.commits)
    requires c in a.commits && d in b.commits && c.id == d.id
    ensures c.hash == d.hash
  {
    StampsMembers(a.commits, StampOf(c));
    StampsMembers(b.commits, StampOf(d));
    PermutedMembers(Stamps(a.commits), Stamps(b.commits));
    SameIdSameStamp(b.commits, StampOf(c), StampOf(d));
  }

  lemma FewerTexts(h: Digest, some: set<string>, texts: set<string>)
    requires NoCollision(h, texts) && some <= texts
    ensures NoCollision(h, some)
  {}

  lemma SameNameSameLineage(h: Digest, a: Bundle, b: Bundle, c: BundleCommit, d: BundleCommit,
                            line: seq<seq<string>>, other: seq<seq<string>>)
    requires GivesDigests(h) && NoCollision(h, AllHashed(h, a.commits) + AllHashed(h, b.commits))
    requires Verified(h, a.commits) && Verified(h, b.commits) && SameStructure(a, b)
    requires c in a.commits && d in b.commits && c.id == d.id
    requires IsLineage(a.commits, c, line) && IsLineage(b.commits, d, other)
    ensures line == other
  {
    SameStampSameHash(a, b, c, d);
    ChainsAgree(h, a.commits, b.commits, c, d, line, other);
  }

  lemma SameManifestSameStructure(h: Digest, a: Bundle, b: Bundle)
    requires NoCollision(h, AllFed(h, a) + AllFed(h, b))
    requires Sealed(h, a) && Sealed(h, b) && a.manifest == b.manifest
    ensures SameStructure(a, b)
  {
    assert ManifestText(a) in AllFed(h, a) && ManifestText(b) in AllFed(h, b);
    TextIsStructure(a, b);
  }

  /** Two verified bundles with one manifest hash are one world: the same name, branches,
      markers and commits, and each commit with the same events in its whole ancestry. */
  lemma ManifestPinsTheWorld(h: Digest, a: Bundle, b: Bundle)
    requires GivesDigests(h) && NoCollision(h, AllFed(h, a) + AllFed(h, b))
    requires Sealed(h, a) && Sealed(h, b) && a.manifest == b.manifest
    ensures SameStructure(a, b)
    ensures forall c, d, line, other | c in a.commits && d in b.commits && c.id == d.id
              && IsLineage(a.commits, c, line) && IsLineage(b.commits, d, other) :: line == other
  {
    SameManifestSameStructure(h, a, b);
    FewerTexts(h, AllHashed(h, a.commits) + AllHashed(h, b.commits), AllFed(h, a) + AllFed(h, b));
    forall c, d, line, other | c in a.commits && d in b.commits && c.id == d.id
      && IsLineage(a.commits, c, line) && IsLineage(b.commits, d, other)
      ensures line == other
    {
      SameNameSameLineage(h, a, b, c, d, line, other);
    }
  }

  /** The order commits, branches and markers are listed in changes neither a commit's hash
      nor the manifest's. */
  lemma StampingIgnoresListing(h: Digest, a: Bundle, b: Bundle)
    requires DistinctlyNamed(a) && ParentsShallower(a.commits)
    requires a.name == b.name && multiset(a.commits) == multiset(b.commits)
    requires multiset(a.branches) == multiset(b.branches) && multiset(a.markers) == multiset(b.markers)
    ensures ChainOf(h, a.commits) == ChainOf(h, b.commits)
    ensures Stamped(h, a).manifest == Stamped(h, b).manifest
  {
    ListingOrderDoesNotMatter(h, a.commits, b.commits);
    var hashes := ChainOf(h, a.commits);
    ChainCovers(h, a.commits);
    ChainCovers(h, b.commits);
    var s, t := Restamped(a.commits, hashes), Restamped(b.commits, hashes);
    RestampedBag(a.commits, hashes);
    RestampedBag(b.commits, hashes);
    StampedDistinct(a.commits, hashes);
    BagPermuted(a.commits, b.commits, hashes);
    StructureGivesText(a.(commits := s), b.(commits := t));
    TextIgnoresManifest(a.(commits := s), h(ManifestText(a.(commits := s))));
  }

  lemma TextIgnoresManifest(b: Bundle, m: string)
    ensures ManifestText(b.(manifest := m)) == ManifestText(b)
  {}

  /** The stamps the commits get from these hashes, however they are listed. */
  ghost function Bag(s: seq<BundleCommit>, hashes: map<Id, string>): multiset<Stamp>
    requires forall c :: c in s ==> c.id in hashes
  {
    if s == [] then multiset{}
    else Bag(s[..|s| - 1], hashes) + multiset{Stamp(s[|s| - 1].id, hashes[s[|s| - 1].id])}
  }

  lemma {:induction false} BagConcat(s: seq<BundleCommit>, t: seq<BundleCommit>, hashes: map<Id, string>)
    requires forall c :: c in s + t ==> c.id in hashes
    ensures Bag(s + t, hashes) == Bag(s, hashes) + Bag(t, hashes)
  {
    if t == [] {
      assert s + t == s;
    } else {
      assert (s + t)[..|s + t| - 1] == s + t[..|t| - 1];
      BagConcat(s, t[..|t| - 1], hashes);
    }
  }

  lemma {:induction false} RestampedBag(s: seq<BundleCommit>, hashes: map<Id, string>)
    requires forall c :: c in s ==> c.id in hashes
    ensures multiset(Stamps(Restamped(s, hashes))) == Bag(s, hashes)
  {
    if s != [] {
      var init := s[..|s| - 1];
      RestampedBag(init, hashes);
      assert Restamped(s, hashes)[..|s| - 1] == Restamped(init, hashes);
    }
  }

  lemma {:induction false} StampedDistinct(s: seq<BundleCommit>, hashes: map<Id, string>)
    requires DistinctIds(s) && forall c :: c in s ==> c.id in hashes
    ensures DistinctIds(Restamped(s, hashes)) && Ids(Restamped(s, hashes)) == Ids(s)
  {
    if s != [] {
      StampedDistinct(s[..|s| - 1], hashes);
      assert Restamped(s, hashes)[..|s| - 1] == Restamped(s[..|s| - 1], hashes);
    }
  }

  lemma BagWithout(t: seq<BundleCommit>, j: nat, hashes: map<Id, string>)
    requires j < |t| && forall c :: c in t ==> c.id in hashes
    ensures Bag(t, hashes) == Bag(t[..j] + t[j + 1..], hashes) + multiset{Stamp(t[j].id, hashes[t[j].id])}
  {
    assert t == t[..j] + [t[j]] + t[j + 1..];
    BagConcat(t[..j] + [t[j]], t[j + 1..], hashes);
    BagConcat(t[..j], [t[j]], hashes);
    BagConcat(t[..j], t[j + 1..], hashes);
    assert [t[j]][..0] == [];
  }

  /** Where the first of `s` is listed in a permutation of it. */
  lemma FirstElsewhere(s: seq<BundleCommit>, t: seq<BundleCommit>) returns (j: nat)
    requires multiset(s) == multiset(t) && s != []
    ensures j < |t| && t[j] == s[0]
    ensures multiset(s[1..]) == multiset(t[..j] + t[j + 1..])
    ensures forall c :: c in t[..j] + t[j + 1..] ==> c in t
  {
    PermutedMembers(s, t);
    j := IndexOf(t, s[0]);
    assert s == [s[0]] + s[1..];
    assert t == t[..j] + [t[j]] + t[j + 1..];
    assert multiset(s[1..]) == multiset(s) - multiset{s[0]};
    assert multiset(t[..j] + t[j + 1..]) == multiset(t) - multiset{t[j]};
  }

  lemma {:induction false} BagPermuted(s: seq<BundleCommit>, t: seq<BundleCommit>, hashes: map<Id, string>)
    requires multiset(s) == multiset(t)
    requires forall c :: c in s ==> c.id in hashes
    requires forall c :: c in t ==> c.id in hashes
    ensures Bag(s, hashes) == Bag(t, hashes)
    decreases |s|
  {
    if s == [] {
      PermutedMembers(s, t);
    } else {
      var j := FirstElsewhere(s, t);
      var u, v := s[..0] + s[1..], t[..j] + t[j + 1..];
      assert u == s[1..];
      BagWithout(t, j, hashes);
      BagWithout(s, 0, hashes);
      BagPermuted(u, v, hashes);
    }
  }
}
