/** Which bundles a manifest's text says unmistakably, and which other bundles read the same. */
module Ambiguity {
  import opened Common
  import opened StableSort
  import opened CommitHash
  import opened Chain
  import opened Manifest
  import opened Bundles

  // --- separators in a text ---

  function Bars(s: string): nat {
    if s == "" then 0 else Bars(s[..|s| - 1]) + if s[|s| - 1] == '|' then 1 else 0
  }

  lemma {:induction false} BarsConcat(s: string, t: string)
    ensures Bars(s + t) == Bars(s) + Bars(t)
  {
    if t == "" {
      assert s + t == s;
    } else {
      assert (s + t)[..|s + t| - 1] == s + t[..|t| - 1];
      BarsConcat(s, t[..|t| - 1]);
    }
  }

  lemma OneBar()
    ensures Bars("|") == 1
  {
    assert "|"[..0] == "";
  }

  lemma OneMore(x: string, u: string, last: char)
    requires last != '|'
    ensures x + "|" + u + [last] == x + "|" + (u + [last]) && Bars(u + [last]) == Bars(u)
  {
    BarsConcat(u, [last]);
    assert [last][..0] == "";
  }

  /** A text with a bar in it falls into two parts. */
  lemma {:induction false} CutAtBar(s: string) returns (x: string, u: string)
    requires Bars(s) >= 1
    ensures s == x + "|" + u && Bars(x) == Bars(s) - 1
  {
    var init, last := s[..|s| - 1], s[|s| - 1];
    assert s == init + [last];
    if last == '|' {
      x, u := init, "";
      assert init + "|" + "" == init + [last];
    } else {
      x, u := CutAtBar(init);
      OneMore(x, u, last);
      u := u + [last];
    }
  }

  // --- names that read as text with an entry ---

  /** An entry's kind, and the rest of its text with at least so many bars. */
  predicate Heads(head: string, rest: string) {
    (head == "|c|" && Bars(rest) >= 1) || (head == "|b|" && Bars(rest) >= 3) || (head == "|m|" && Bars(rest) >= 2)
  }

  /** From place `k` on the name reads as the text of a commit, a branch or a marker. */
  predicate EntryAt(name: string, k: nat) {
    k + 3 <= |name| && Heads(name[k..k + 3], name[k + 3..])
  }

  predicate ReadsAsEntry(name: string) {
    exists k :: 0 <= k < |name| && EntryAt(name, k)
  }

  predicate HasEntries(b: Bundle) {
    b.commits != [] || b.branches != [] || b.markers != []
  }

  lemma EntriesCount(b: Bundle)
    ensures Entries(b) == [] <==> !HasEntries(b)
  {
    SortContents(StampById, Stamps(b.commits));
    SortContents(BranchById, b.branches);
    SortContents(MarkerById, b.markers);
    StampsCount(b.commits);
  }

  lemma {:induction false} StampsCount(s: seq<BundleCommit>)
    ensures |Stamps(s)| == |s|
  {
    if s != [] { StampsCount(s[..|s| - 1]); }
  }

  lemma ThreeParts(x: string, y: string, z: string)
    ensures Bars(x + "|" + y + "|" + z) == Bars(x) + Bars(y) + Bars(z) + 2
  {
    OneBar();
    BarsConcat(x + "|" + y + "|", z);
    BarsConcat(x + "|" + y, "|");
    BarsConcat(x + "|", y);
    BarsConcat(x, "|");
  }

  lemma CommitEntryText(s: Stamp) returns (rest: string)
    ensures Barred(Tokens(CommitEntry(s))) == "|c|" + rest && Heads("|c|", rest)
  {
    CommitTokens(s);
    rest := s.id + "|" + s.hash;
    OneBar();
    BarsConcat(s.id + "|", s.hash);
    BarsConcat(s.id, "|");
    assert "|c|" + s.id + "|" + s.hash == "|c|" + rest;
  }

  lemma MarkerEntryText(m: BundleMarker) returns (rest: string)
    ensures Barred(Tokens(MarkerEntry(m))) == "|m|" + rest && Heads("|m|", rest)
  {
    MarkerTokens(m);
    rest := m.id + "|" + m.name + "|" + m.commit;
    ThreeParts(m.id, m.name, m.commit);
    assert "|m|" + m.id + "|" + m.name + "|" + m.commit == "|m|" + rest;
  }

  lemma BranchEntryText(b: BundleBranch) returns (rest: string)
    ensures Barred(Tokens(BranchEntry(b))) == "|b|" + rest && Heads("|b|", rest)
  {
    BranchTokens(b);
    var a, d, f := b.id + "|" + b.name, Rendered(b.head), Rendered(b.forkedFrom);
    rest := a + "|" + d + "|" + f;
    ThreeParts(a, d, f);
    OneBar();
    BarsConcat(b.id + "|", b.name);
    BarsConcat(b.id, "|");
    FourParts(b.id, b.name, d, f);
  }

  lemma FourParts(x: string, y: string, z: string, t: string)
    ensures "|b|" + x + "|" + y + "|" + z + "|" + t == "|b|" + (x + "|" + y + "|" + z + "|" + t)
  {
    assert "|b|" + x + "|" + y == "|b|" + (x + "|" + y);
    assert "|b|" + x + "|" + y + "|" + z == "|b|" + (x + "|" + y + "|" + z);
  }

  lemma EntryText(e: Entry) returns (head: string, rest: string)
    ensures Barred(Tokens(e)) == head + rest && Heads(head, rest)
  {
    match e
    case CommitEntry(s) => rest := CommitEntryText(s); head := "|c|";
    case BranchEntry(b) => rest := BranchEntryText(b); head := "|b|";
    case MarkerEntry(m) => rest := MarkerEntryText(m); head := "|m|";
  }

  lemma LastEntry(name: string, entries: seq<Entry>)
    requires entries != []
    ensures var e := entries[|entries| - 1];
      name + Barred(AllTokens(entries)) == name + Barred(AllTokens(entries[..|entries| - 1])) + Barred(Tokens(e))
  {
    assert entries == entries[..|entries| - 1] + [entries[|entries| - 1]];
    EntryAppend(name, entries[..|entries| - 1], entries[|entries| - 1]);
  }

  lemma HeadedAt(before: string, head: string, rest: string)
    requires Heads(head, rest)
    ensures EntryAt(before + (head + rest), |before|)
  {
    var text := before + (head + rest);
    assert |head| == 3;
    assert text[|before|..|before| + 3] == head && text[|before| + 3..] == rest;
  }

  /** A bundle with an entry gives a text that reads as one from some place on. */
  lemma TextReadsAsEntry(b: Bundle)
    requires HasEntries(b)
    ensures ReadsAsEntry(ManifestText(b)) && |ManifestText(b)| > |b.name|
  {
    EntriesCount(b);
    var entries, text := Entries(b), ManifestText(b);
    LastEntry(b.name, entries);
    var before := b.name + Barred(AllTokens(entries[..|entries| - 1]));
    var head, rest := EntryText(entries[|entries| - 1]);
    assert text == before + (head + rest);
    HeadedAt(before, head, rest);
  }

  /** The bundle of that one entry, named by what stands before it. */
  lemma {:induction false} EntryFromText(name: string, k: nat) returns (a: Bundle)
    requires EntryAt(name, k)
    ensures ManifestText(a) == name && a.name == name[..k]
  {
    var p, head, rest := name[..k], name[k..k + 3], name[k + 3..];
    assert name == p + (head + rest);
    if head == "|c|" {
      a := CommitFrom(p, rest);
    } else if head == "|b|" {
      a := BranchFrom(p, rest);
    } else {
      a := MarkerFrom(p, rest);
    }
  }

  lemma OneEntry(a: Bundle, e: Entry)
    requires Entries(a) == [e]
    ensures ManifestText(a) == a.name + Barred(Tokens(e))
  {
    assert [e][1..] == [] && AllTokens([e]) == Tokens(e) + [] == Tokens(e);
  }

  lemma CommitFrom(p: string, rest: string) returns (a: Bundle)
    requires Bars(rest) >= 1
    ensures ManifestText(a) == p + ("|c|" + rest) && a.name == p
  {
    var x, u := CutAtBar(rest);
    var c := BundleCommit(x, None, 0, u, []);
    a := Bundle(p, [c], [], [], "");
    assert [c][..0] == [] && Stamps([c]) == [StampOf(c)];
    assert [StampOf(c)][..0] == [] && Sort(StampById, [StampOf(c)]) == [StampOf(c)];
    assert Entries(a) == [CommitEntry(StampOf(c))];
    OneEntry(a, CommitEntry(StampOf(c)));
    CommitTokens(StampOf(c));
    assert "|c|" + x + "|" + u == "|c|" + rest;
  }

  lemma MarkerFrom(p: string, rest: string) returns (a: Bundle)
    requires Bars(rest) >= 2
    ensures ManifestText(a) == p + ("|m|" + rest) && a.name == p
  {
    var xy, z := CutAtBar(rest);
    var x, y := CutAtBar(xy);
    var m := BundleMarker(x, y, z);
    a := Bundle(p, [], [], [m], "");
    assert [m][..0] == [] && Sort(MarkerById, [m]) == [m];
    assert Entries(a) == [MarkerEntry(m)];
    OneEntry(a, MarkerEntry(m));
    MarkerTokens(m);
    assert "|m|" + x + "|" + y + "|" + z == "|m|" + rest;
  }

  lemma BranchFrom(p: string, rest: string) returns (a: Bundle)
    requires Bars(rest) >= 3
    ensures ManifestText(a) == p + ("|b|" + rest) && a.name == p
  {
    var xyz, t := CutAtBar(rest);
    var xy, z := CutAtBar(xyz);
    var x, y := CutAtBar(xy);
    var r := BundleBranch(x, y, Some(z), Some(t));
    a := Bundle(p, [], [r], [], "");
    assert [r][..0] == [] && Sort(BranchById, [r]) == [r];
    assert Entries(a) == [BranchEntry(r)];
    OneEntry(a, BranchEntry(r));
    BranchTokens(r);
    FourParts(x, y, z, t);
    assert rest == xy + "|" + z + "|" + t;
  }

  // --- when another bundle reads the same ---

  /** All of a bundle's text, taken for the name of a world with nothing in it. */
  function Hollow(b: Bundle, manifest: string): Bundle {
    Bundle(ManifestText(b), [], [], [], manifest)
  }

  lemma HollowReadsTheSame(b: Bundle, manifest: string)
    ensures ManifestText(Hollow(b, manifest)) == ManifestText(b)
    ensures HasEntries(b) ==> !SameStructure(Hollow(b, manifest), b)
  {
    EntriesCount(Hollow(b, manifest));
    if HasEntries(b) { TextReadsAsEntry(b); }
  }

  lemma NothingElseReadsSo(a: Bundle, b: Bundle)
    requires !HasEntries(b) && !ReadsAsEntry(b.name) && ManifestText(a) == ManifestText(b)
    ensures SameStructure(a, b)
  {
    EntriesCount(b);
    EntriesCount(a);
    assert ManifestText(b) == b.name + "" == b.name;
    if HasEntries(a) {
      TextReadsAsEntry(a);
    } else {
      assert ManifestText(a) == a.name + "" == a.name;
    }
  }

  /** Some bundle of another structure has the same manifest text exactly when the bundle has any
      commit, branch or marker, or its name reads from some place on as the text of one. */
  lemma AnotherReadsTheSameIff(b: Bundle)
    ensures (exists a :: ManifestText(a) == ManifestText(b) && !SameStructure(a, b))
        <==> HasEntries(b) || ReadsAsEntry(b.name)
  {
    if HasEntries(b) {
      HollowReadsTheSame(b, "");
    } else if ReadsAsEntry(b.name) {
      EntriesCount(b);
      var k :| 0 <= k < |b.name| && EntryAt(b.name, k);
      var a := EntryFromText(b.name, k);
      assert ManifestText(a) == ManifestText(b) && !SameStructure(a, b);
    } else {
      forall a | ManifestText(a) == ManifestText(b) ensures SameStructure(a, b) { NothingElseReadsSo(a, b); }
    }
  }

  /** And for a bundle with any entry there is one that verification accepts, under the manifest hash
      the bundle itself must have to be accepted: a world of that long name with nothing in it. */
  lemma ForgedIsAccepted(h: Digest, b: Bundle)
    requires HasEntries(b)
    ensures var a := Hollow(b, h(ManifestText(b)));
      && Verifies(h, a) && ManifestText(a) == ManifestText(b) && !SameStructure(a, b)
      && (Verifies(h, b) ==> a.manifest == b.manifest)
  {
    HollowReadsTheSame(b, h(ManifestText(b)));
  }

  // --- texts without separators in the fields ---

  /** An id spelled like an absent one, taken for absent. */
  function PlainId(id: Option<Id>): Option<Id> {
    if id == Some("None") then None else id
  }

  function PlainBranch(r: BundleBranch): BundleBranch {
    r.(head := PlainId(r.head), forkedFrom := PlainId(r.forkedFrom))
  }

  function PlainBranches(s: seq<BundleBranch>): seq<BundleBranch> {
    seq(|s|, i requires 0 <= i < |s| => PlainBranch(s[i]))
  }

  function Plain(b: Bundle): Bundle {
    b.(branches := PlainBranches(b.branches))
  }

  /** No field holds the separator. */
  predicate FieldsBarFree(b: Bundle) {
    Clean(Plain(b))
  }

  predicate IsPlainOf(r: BundleBranch, t: BundleBranch) {
    t == PlainBranch(r)
  }

  lemma {:induction false} BranchTokensAlike(s: seq<BundleBranch>, t: seq<BundleBranch>)
    requires Pairwise(IsPlainOf, s, t)
    ensures AllTokens(BranchEntries(s)) == AllTokens(BranchEntries(t))
  {
    if s != [] {
      var n := |s| - 1;
      BranchTokensAlike(s[..n], t[..n]);
      assert BranchEntries(s) == BranchEntries(s[..n]) + [BranchEntry(s[n])];
      assert BranchEntries(t) == BranchEntries(t[..n]) + [BranchEntry(t[n])];
      TokensAppend(BranchEntries(s[..n]), BranchEntry(s[n]));
      TokensAppend(BranchEntries(t[..n]), BranchEntry(t[n]));
    }
  }

  lemma {:induction false} TokensConcat(s: seq<Entry>, t: seq<Entry>)
    ensures AllTokens(s + t) == AllTokens(s) + AllTokens(t)
  {
    if s == [] {
      assert s + t == t;
    } else {
      assert (s + t)[1..] == s[1..] + t;
      TokensConcat(s[1..], t);
    }
  }

  lemma PlainReadsTheSame(b: Bundle)
    ensures ManifestText(Plain(b)) == ManifestText(b)
  {
    var s, t := b.branches, PlainBranches(b.branches);
    PairwiseAt(IsPlainOf, s, t);
    SortPairwise(BranchById, IsPlainOf, s, t);
    BranchTokensAlike(Sort(BranchById, s), Sort(BranchById, t));
    var cs, ms := CommitEntries(Sort(StampById, Stamps(b.commits))), MarkerEntries(Sort(MarkerById, b.markers));
    TokensConcat(cs + BranchEntries(Sort(BranchById, s)), ms);
    TokensConcat(cs, BranchEntries(Sort(BranchById, s)));
    TokensConcat(cs + BranchEntries(Sort(BranchById, t)), ms);
    TokensConcat(cs, BranchEntries(Sort(BranchById, t)));
  }

  lemma PlainDistinct(b: Bundle)
    requires DistinctlyNamed(b)
    ensures DistinctlyNamed(Plain(b))
  {
    forall r, t | r in Plain(b).branches && t in Plain(b).branches && r.id == t.id ensures r == t {
      var i :| 0 <= i < |b.branches| && PlainBranch(b.branches[i]) == r;
      var j :| 0 <= j < |b.branches| && PlainBranch(b.branches[j]) == t;
      assert b.branches[i] in b.branches && b.branches[j] in b.branches;
    }
  }

  /** Between bundles without separators in their fields, equal texts are equal structures, once an
      id spelled "None" is taken for an absent one. */
  lemma TextIsPlainStructure(a: Bundle, b: Bundle)
    requires FieldsBarFree(a) && FieldsBarFree(b) && DistinctlyNamed(a)
    ensures ManifestText(a) == ManifestText(b) <==> SameStructure(Plain(a), Plain(b))
  {
    PlainReadsTheSame(a);
    PlainReadsTheSame(b);
    PlainDistinct(a);
    TextIsStructure(Plain(a), Plain(b));
  }
}
