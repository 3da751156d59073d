/** The manifest of an export bundle: one text over its name, stamped commits, branches and markers. */
module Manifest {
  import opened Common
  import opened StableSort
  import opened Chain

  datatype Stamp = Stamp(id: Id, hash: string)

  datatype BundleBranch = BundleBranch(id: Id, name: string, head: Option<Id>, forkedFrom: Option<Id>)

  datatype BundleMarker = BundleMarker(id: Id, name: string, commit: Id)

  datatype Bundle = Bundle(name: string, commits: seq<BundleCommit>, branches: seq<BundleBranch>,
                           markers: seq<BundleMarker>, manifest: string)

  predicate StampById(a: Stamp, b: Stamp) { StringLe(a.id, b.id) }

  predicate BranchById(a: BundleBranch, b: BundleBranch) { StringLe(a.id, b.id) }

  predicate MarkerById(a: BundleMarker, b: BundleMarker) { StringLe(a.id, b.id) }

  // --- the text ---

  datatype Entry = CommitEntry(stamp: Stamp) | BranchEntry(branch: BundleBranch) | MarkerEntry(marker: BundleMarker)

  /** An absent id is written out the way Python prints it. */
  function Rendered(id: Option<Id>): string {
    id.Or("None")
  }

  function Tokens(e: Entry): seq<string> {
    match e
    case CommitEntry(s) => ["c", s.id, s.hash]
    case BranchEntry(b) => ["b", b.id, b.name, Rendered(b.head), Rendered(b.forkedFrom)]
    case MarkerEntry(m) => ["m", m.id, m.name, m.commit]
  }

  function AllTokens(entries: seq<Entry>): seq<string> {
    if entries == [] then [] else Tokens(entries[0]) + AllTokens(entries[1..])
  }

  function Barred(tokens: seq<string>): string {
    if tokens == [] then "" else "|" + tokens[0] + Barred(tokens[1..])
  }

  function StampOf(c: BundleCommit): Stamp { Stamp(c.id, c.hash) }

  function Stamps(s: seq<BundleCommit>): seq<Stamp> {
    if s == [] then [] else Stamps(s[..|s| - 1]) + [StampOf(s[|s| - 1])]
  }

  function CommitEntries(s: seq<Stamp>): seq<Entry> {
    seq(|s|, i requires 0 <= i < |s| => CommitEntry(s[i]))
  }

  function BranchEntries(s: seq<BundleBranch>): seq<Entry> {
    seq(|s|, i requires 0 <= i < |s| => BranchEntry(s[i]))
  }

  function MarkerEntries(s: seq<BundleMarker>): seq<Entry> {
    seq(|s|, i requires 0 <= i < |s| => MarkerEntry(s[i]))
  }

  function Entries(b: Bundle): seq<Entry> {
    CommitEntries(Sort(StampById, Stamps(b.commits)))
      + BranchEntries(Sort(BranchById, b.branches))
      + MarkerEntries(Sort(MarkerById, b.markers))
  }

  function ManifestText(b: Bundle): string {
    b.name + Barred(AllTokens(Entries(b)))
  }

  lemma {:induction false} TokensAppend(entries: seq<Entry>, e: Entry)
    ensures AllTokens(entries + [e]) == AllTokens(entries) + Tokens(e)
  {
    if entries == [] {
      assert [e][1..] == [];
      assert AllTokens([e]) == Tokens(e);
    } else {
      assert (entries + [e])[1..] == entries[1..] + [e];
      TokensAppend(entries[1..], e);
    }
  }

  lemma {:induction false} BarredAppend(tokens: seq<string>, more: seq<string>)
    ensures Barred(tokens + more) == Barred(tokens) + Barred(more)
  {
    if tokens == [] {
      assert tokens + more == more;
    } else {
      assert (tokens + more)[1..] == tokens[1..] + more;
      BarredAppend(tokens[1..], more);
    }
  }

  lemma EntryAppend(name: string, entries: seq<Entry>, e: Entry)
    ensures name + Barred(AllTokens(entries + [e]))
         == name + Barred(AllTokens(entries)) + Barred(Tokens(e))
  {
    TokensAppend(entries, e);
    BarredAppend(AllTokens(entries), Tokens(e));
  }

  lemma Onto(before: string, token: string, more: seq<string>)
    ensures before + Barred([token] + more) == before + "|" + token + Barred(more)
  {
    assert ([token] + more)[1..] == more;
    assert Barred([token] + more) == "|" + token + Barred(more);
    Regroup(before, "|" + token, Barred(more));
    Regroup(before, "|", token);
  }

  lemma OneToken(kind: string, more: seq<string>)
    ensures Barred([kind] + more) == "|" + kind + Barred(more)
  {
    assert ([kind] + more)[1..] == more;
  }

  lemma CommitTokens(s: Stamp)
    ensures Barred(Tokens(CommitEntry(s))) == "|c|" + s.id + "|" + s.hash
  {
    assert Tokens(CommitEntry(s)) == ["c"] + [s.id, s.hash];
    OneToken("c", [s.id, s.hash]);
    assert "|" + "c" == "|c" && "|c" + "|" == "|c|";
    assert [s.id, s.hash] == [s.id] + [s.hash];
    Onto("|c", s.id, [s.hash]);
    Onto("|c|" + s.id, s.hash, []);
  }

  lemma MarkerTokens(m: BundleMarker)
    ensures Barred(Tokens(MarkerEntry(m))) == "|m|" + m.id + "|" + m.name + "|" + m.commit
  {
    assert Tokens(MarkerEntry(m)) == ["m"] + [m.id, m.name, m.commit];
    OneToken("m", [m.id, m.name, m.commit]);
    assert "|" + "m" == "|m" && "|m" + "|" == "|m|";
    assert [m.id, m.name, m.commit] == [m.id] + [m.name, m.commit];
    Onto("|m", m.id, [m.name, m.commit]);
    assert [m.name, m.commit] == [m.name] + [m.commit];
    Onto("|m|" + m.id, m.name, [m.commit]);
    Onto("|m|" + m.id + "|" + m.name, m.commit, []);
  }

  lemma BranchTokens(b: BundleBranch)
    ensures Barred(Tokens(BranchEntry(b)))
         == "|b|" + b.id + "|" + b.name + "|" + Rendered(b.head) + "|" + Rendered(b.forkedFrom)
  {
    var f, d := Rendered(b.forkedFrom), Rendered(b.head);
    assert Tokens(BranchEntry(b)) == ["b"] + [b.id, b.name, d, f];
    OneToken("b", [b.id, b.name, d, f]);
    assert "|" + "b" == "|b" && "|b" + "|" == "|b|";
    assert [b.id, b.name, d, f] == [b.id] + [b.name, d, f];
    Onto("|b", b.id, [b.name, d, f]);
    assert [b.name, d, f] == [b.name] + [d, f];
    Onto("|b|" + b.id, b.name, [d, f]);
    assert [d, f] == [d] + [f];
    Onto("|b|" + b.id + "|" + b.name, d, [f]);
    Onto("|b|" + b.id + "|" + b.name + "|" + d, f, []);
  }

  // --- reading it back ---

  predicate BarFree(s: string) { '|' !in s }

  predicate AllBarFree(tokens: seq<string>) {
    forall t :: t in tokens ==> BarFree(t)
  }

  predicate CleanId(id: Option<Id>) {
    id.Some? ==> BarFree(id.value) && id.value != "None"
  }

  predicate CleanEntry(e: Entry) {
    match e
    case CommitEntry(s) => BarFree(s.id) && BarFree(s.hash)
    case BranchEntry(b) => BarFree(b.id) && BarFree(b.name) && CleanId(b.head) && CleanId(b.forkedFrom)
    case MarkerEntry(m) => BarFree(m.id) && BarFree(m.name) && BarFree(m.commit)
  }

  /** No field holds the separator, and no id is spelled like an absent one. */
  predicate Clean(b: Bundle) {
    && BarFree(b.name)
    && (forall c :: c in b.commits ==> CleanEntry(CommitEntry(StampOf(c))))
    && (forall r :: r in b.branches ==> CleanEntry(BranchEntry(r)))
    && (forall m :: m in b.markers ==> CleanEntry(MarkerEntry(m)))
  }

  predicate AllClean(entries: seq<Entry>) {
    forall e :: e in entries ==> CleanEntry(e)
  }

  function FirstBar(s: string): nat {
    if s == "" || s[0] == '|' then 0 else 1 + FirstBar(s[1..])
  }

  lemma {:induction false} FirstBarEndsField(x: string, u: string)
    requires BarFree(x) && (u == "" || u[0] == '|')
    ensures FirstBar(x + u) == |x|
  {
    if x == "" {
      assert x + u == u;
    } else {
      assert (x + u)[1..] == x[1..] + u;
      FirstBarEndsField(x[1..], u);
    }
  }

  lemma Cut(x: string, u: string, y: string, v: string)
    requires BarFree(x) && BarFree(y) && x + u == y + v
    requires (u == "" || u[0] == '|') && (v == "" || v[0] == '|')
    ensures x == y && u == v
  {
    FirstBarEndsField(x, u);
    FirstBarEndsField(y, v);
    var s, t := x + u, y + v;
    assert x == s[..|x|] == t[..|y|] == y;
    assert u == s[|x|..] == t[|y|..] == v;
  }

  lemma {:induction false} BarredReadsBack(tokens: seq<string>, others: seq<string>)
    requires AllBarFree(tokens) && AllBarFree(others) && Barred(tokens) == Barred(others)
    ensures tokens == others
  {
    if tokens != [] {
      var u, v := Barred(tokens), Barred(others);
      assert u[1..] == tokens[0] + Barred(tokens[1..]);
      assert v[1..] == others[0] + Barred(others[1..]);
      Cut(tokens[0], Barred(tokens[1..]), others[0], Barred(others[1..]));
      BarredReadsBack(tokens[1..], others[1..]);
      assert tokens == [tokens[0]] + tokens[1..] && others == [others[0]] + others[1..];
    }
  }

  lemma {:induction false} TokensBarFree(entries: seq<Entry>)
    requires AllClean(entries)
    ensures AllBarFree(AllTokens(entries))
  {
    if entries != [] {
      assert CleanEntry(entries[0]) && BarFree("None");
      TokensBarFree(entries[1..]);
    }
  }

  lemma RenderedReadsBack(a: Option<Id>, b: Option<Id>)
    requires CleanId(a) && CleanId(b) && Rendered(a) == Rendered(b)
    ensures a == b
  {}

  /** The first word of an entry says how long it is. */
  lemma FirstEntry(e: Entry, u: seq<string>, f: Entry, v: seq<string>)
    requires CleanEntry(e) && CleanEntry(f) && Tokens(e) + u == Tokens(f) + v
    ensures e == f && u == v
  {
    var s, t := Tokens(e) + u, Tokens(f) + v;
    assert Tokens(e)[0] == s[0] && Tokens(f)[0] == t[0];
    assert "c"[0] != "b"[0] && "b"[0] != "m"[0] && "c"[0] != "m"[0];
    assert |Tokens(e)| == |Tokens(f)|;
    assert Tokens(e) == s[..|Tokens(e)|] == t[..|Tokens(f)|] == Tokens(f);
    assert u == s[|Tokens(e)|..] == t[|Tokens(f)|..] == v;
    assert Tokens(e)[1] == Tokens(f)[1] && Tokens(e)[2] == Tokens(f)[2];
    if e.BranchEntry? {
      assert Tokens(e)[3] == Tokens(f)[3] && Tokens(e)[4] == Tokens(f)[4];
      RenderedReadsBack(e.branch.head, f.branch.head);
      RenderedReadsBack(e.branch.forkedFrom, f.branch.forkedFrom);
    } else if e.MarkerEntry? {
      assert Tokens(e)[3] == Tokens(f)[3];
    }
  }

  lemma {:induction false} EntriesReadBack(entries: seq<Entry>, others: seq<Entry>)
    requires AllClean(entries) && AllClean(others) && AllTokens(entries) == AllTokens(others)
    ensures entries == others
  {
    if entries != [] {
      var e, f := entries[0], others[0];
      FirstEntry(e, AllTokens(entries[1..]), f, AllTokens(others[1..]));
      EntriesReadBack(entries[1..], others[1..]);
      assert entries == [e] + entries[1..] && others == [f] + others[1..];
    }
  }

  lemma {:induction false} StampsMembers(s: seq<BundleCommit>, x: Stamp)
    ensures x in Stamps(s) <==> exists c :: c in s && StampOf(c) == x
  {
    if s != [] {
      assert s == s[..|s| - 1] + [s[|s| - 1]];
      StampsMembers(s[..|s| - 1], x);
      assert s[|s| - 1] in s;
    }
  }

  lemma CleanStamps(s: seq<BundleCommit>)
    requires forall c :: c in s ==> CleanEntry(CommitEntry(StampOf(c)))
    ensures AllClean(CommitEntries(Sort(StampById, Stamps(s))))
  {
    var t := Sort(StampById, Stamps(s));
    SortContents(StampById, Stamps(s));
    PermutedMembers(t, Stamps(s));
    forall e | e in CommitEntries(t) ensures CleanEntry(e) {
      assert e.stamp in t;
      StampsMembers(s, e.stamp);
    }
  }

  lemma CleanBranches(s: seq<BundleBranch>)
    requires forall r :: r in s ==> CleanEntry(BranchEntry(r))
    ensures AllClean(BranchEntries(Sort(BranchById, s)))
  {
    var t := Sort(BranchById, s);
    SortContents(BranchById, s);
    PermutedMembers(t, s);
    forall e | e in BranchEntries(t) ensures CleanEntry(e) {
      assert e.branch in t;
    }
  }

  lemma CleanMarkers(s: seq<BundleMarker>)
    requires forall m :: m in s ==> CleanEntry(MarkerEntry(m))
    ensures AllClean(MarkerEntries(Sort(MarkerById, s)))
  {
    var t := Sort(MarkerById, s);
    SortContents(MarkerById, s);
    PermutedMembers(t, s);
    forall e | e in MarkerEntries(t) ensures CleanEntry(e) {
      assert e.marker in t;
    }
  }

  lemma CleanBundle(b: Bundle)
    requires Clean(b)
    ensures AllClean(Entries(b))
  {
    CleanStamps(b.commits);
    CleanBranches(b.branches);
    CleanMarkers(b.markers);
  }

  lemma TextReadsBack(a: Bundle, b: Bundle)
    requires Clean(a) && Clean(b) && ManifestText(a) == ManifestText(b)
    ensures a.name == b.name && Entries(a) == Entries(b)
  {
    CleanBundle(a);
    CleanBundle(b);
    TokensBarFree(Entries(a));
    TokensBarFree(Entries(b));
    Cut(a.name, Barred(AllTokens(Entries(a))), b.name, Barred(AllTokens(Entries(b))));
    BarredReadsBack(AllTokens(Entries(a)), AllTokens(Entries(b)));
    EntriesReadBack(Entries(a), Entries(b));
  }

  function Sift(kind: Entry -> bool, entries: seq<Entry>): seq<Entry> {
    if entries == [] then []
    else (if kind(entries[0]) then [entries[0]] else []) + Sift(kind, entries[1..])
  }

  lemma {:induction false} SiftConcat(kind: Entry -> bool, s: seq<Entry>, t: seq<Entry>)
    ensures Sift(kind, s + t) == Sift(kind, s) + Sift(kind, t)
  {
    if s == [] {
      assert s + t == t;
    } else {
      SiftConcat(kind, s[1..], t);
      var first := if kind(s[0]) then [s[0]] else [];
      assert (s + t)[0] == s[0] && (s + t)[1..] == s[1..] + t;
      assert Sift(kind, s + t) == first + Sift(kind, s[1..] + t);
      Regroup(first, Sift(kind, s[1..]), Sift(kind, t));
    }
  }

  lemma {:induction false} SiftAlike(kind: Entry -> bool, s: seq<Entry>, all: bool)
    requires forall e :: e in s ==> kind(e) == all
    ensures Sift(kind, s) == if all then s else []
  {
    if s != [] {
      SiftAlike(kind, s[1..], all);
      assert s[0] in s;
      assert s == [s[0]] + s[1..];
    }
  }

  lemma SiftEntries(kind: Entry -> bool, cs: seq<Stamp>, bs: seq<BundleBranch>, ms: seq<BundleMarker>,
                    c: bool, b: bool, m: bool)
    requires forall e: Entry :: kind(e) == if e.CommitEntry? then c else if e.BranchEntry? then b else m
    ensures var sifted := Sift(kind, CommitEntries(cs) + BranchEntries(bs) + MarkerEntries(ms));
            && (c && !b && !m ==> sifted == CommitEntries(cs))
            && (!c && b && !m ==> sifted == BranchEntries(bs))
            && (!c && !b && m ==> sifted == MarkerEntries(ms))
  {
    SiftConcat(kind, CommitEntries(cs) + BranchEntries(bs), MarkerEntries(ms));
    SiftConcat(kind, CommitEntries(cs), BranchEntries(bs));
    SiftAlike(kind, CommitEntries(cs), c);
    SiftAlike(kind, BranchEntries(bs), b);
    SiftAlike(kind, MarkerEntries(ms), m);
  }

  lemma EntriesUnwrap(cs: seq<Stamp>, bs: seq<BundleBranch>, ms: seq<BundleMarker>,
                      cs': seq<Stamp>, bs': seq<BundleBranch>, ms': seq<BundleMarker>)
    requires CommitEntries(cs) == CommitEntries(cs') && BranchEntries(bs) == BranchEntries(bs')
    requires MarkerEntries(ms) == MarkerEntries(ms')
    ensures cs == cs' && bs == bs' && ms == ms'
  {
    assert |cs| == |CommitEntries(cs)| && |bs| == |BranchEntries(bs)| && |ms| == |MarkerEntries(ms)|;
    assert forall i :: 0 <= i < |cs| ==> CommitEntries(cs)[i] == CommitEntry(cs[i]);
    assert forall i :: 0 <= i < |cs'| ==> CommitEntries(cs')[i] == CommitEntry(cs'[i]);
    assert forall i :: 0 <= i < |bs| ==> BranchEntries(bs)[i] == BranchEntry(bs[i]);
    assert forall i :: 0 <= i < |bs'| ==> BranchEntries(bs')[i] == BranchEntry(bs'[i]);
    assert forall i :: 0 <= i < |ms| ==> MarkerEntries(ms)[i] == MarkerEntry(ms[i]);
    assert forall i :: 0 <= i < |ms'| ==> MarkerEntries(ms')[i] == MarkerEntry(ms'[i]);
  }

  lemma EntriesApart(cs: seq<Stamp>, bs: seq<BundleBranch>, ms: seq<BundleMarker>,
                     cs': seq<Stamp>, bs': seq<BundleBranch>, ms': seq<BundleMarker>)
    requires CommitEntries(cs) + BranchEntries(bs) + MarkerEntries(ms)
          == CommitEntries(cs') + BranchEntries(bs') + MarkerEntries(ms')
    ensures cs == cs' && bs == bs' && ms == ms'
  {
    var c, b, m := (e: Entry) => e.CommitEntry?, (e: Entry) => e.BranchEntry?, (e: Entry) => e.MarkerEntry?;
    SiftEntries(c, cs, bs, ms, true, false, false);
    SiftEntries(c, cs', bs', ms', true, false, false);
    SiftEntries(b, cs, bs, ms, false, true, false);
    SiftEntries(b, cs', bs', ms', false, true, false);
    SiftEntries(m, cs, bs, ms, false, false, true);
    SiftEntries(m, cs', bs', ms', false, false, true);
    EntriesUnwrap(cs, bs, ms, cs', bs', ms');
  }

  /** The same name, stamped commits, branches and markers, in whatever order they are listed. */
  ghost predicate SameStructure(a: Bundle, b: Bundle) {
    && a.name == b.name
    && multiset(Stamps(a.commits)) == multiset(Stamps(b.commits))
    && multiset(a.branches) == multiset(b.branches)
    && multiset(a.markers) == multiset(b.markers)
  }

  lemma EntriesGiveStructure(a: Bundle, b: Bundle)
    requires a.name == b.name && Entries(a) == Entries(b)
    ensures SameStructure(a, b)
  {
    var cs, bs, ms := Sort(StampById, Stamps(a.commits)), Sort(BranchById, a.branches), Sort(MarkerById, a.markers);
    var cs', bs', ms' := Sort(StampById, Stamps(b.commits)), Sort(BranchById, b.branches), Sort(MarkerById, b.markers);
    EntriesApart(cs, bs, ms, cs', bs', ms');
    SortContents(StampById, Stamps(a.commits));
    SortContents(StampById, Stamps(b.commits));
    SortContents(BranchById, a.branches);
    SortContents(BranchById, b.branches);
    SortContents(MarkerById, a.markers);
    SortContents(MarkerById, b.markers);
  }

  // --- the order of listing ---

  lemma IdOrders()
    ensures TotalPreorder(StampById) && TotalPreorder(BranchById) && TotalPreorder(MarkerById)
  {
    forall x: string, y: string ensures StringLe(x, y) || StringLe(y, x) { StringLeTotal(x, y); }
    forall x: string, y: string, z: string | StringLe(x, y) && StringLe(y, z) ensures StringLe(x, z) {
      StringLeTransitive(x, y, z);
    }
  }

  /** No two commits, branches or markers of the bundle share an id. */
  ghost predicate DistinctlyNamed(b: Bundle) {
    && DistinctIds(b.commits)
    && (forall r, t :: r in b.branches && t in b.branches && r.id == t.id ==> r == t)
    && (forall m, n :: m in b.markers && n in b.markers && m.id == n.id ==> m == n)
  }

  lemma SortPermuted<T(!new)>(le: (T, T) -> bool, s: seq<T>, t: seq<T>)
    requires TotalPreorder(le) && multiset(s) == multiset(t)
    requires forall x, y :: x in s && y in s && le(x, y) && le(y, x) ==> x == y
    ensures Sort(le, s) == Sort(le, t)
  {
    SortIsStable(le, s);
    SortIsStable(le, t);
    SortContents(le, s);
    SortContents(le, t);
    PermutedMembers(Sort(le, s), s);
    SortedUnique(le, Sort(le, s), Sort(le, t));
  }

  lemma SameIdSameStamp(s: seq<BundleCommit>, x: Stamp, y: Stamp)
    requires DistinctIds(s) && x in Stamps(s) && y in Stamps(s) && x.id == y.id
    ensures x == y
  {
    StampsMembers(s, x);
    StampsMembers(s, y);
    var c :| c in s && StampOf(c) == x;
    var d :| d in s && StampOf(d) == y;
    DistinctApart(s, c, d);
  }

  lemma StampsPermuted(s: seq<BundleCommit>, t: seq<BundleCommit>)
    requires DistinctIds(s) && multiset(Stamps(s)) == multiset(Stamps(t))
    ensures Sort(StampById, Stamps(s)) == Sort(StampById, Stamps(t))
  {
    IdOrders();
    forall x, y | x in Stamps(s) && y in Stamps(s) && StampById(x, y) && StampById(y, x) ensures x == y {
      StringLeTotal(x.id, y.id);
      SameIdSameStamp(s, x, y);
    }
    SortPermuted(StampById, Stamps(s), Stamps(t));
  }

  lemma StructureGivesText(a: Bundle, b: Bundle)
    requires DistinctlyNamed(a) && SameStructure(a, b)
    ensures ManifestText(a) == ManifestText(b)
  {
    IdOrders();
    forall x: string, y: string | StringLe(x, y) && StringLe(y, x) ensures x == y { StringLeTotal(x, y); }
    StampsPermuted(a.commits, b.commits);
    SortPermuted(BranchById, a.branches, b.branches);
    SortPermuted(MarkerById, a.markers, b.markers);
  }

  /** The manifest's text says exactly what the bundle is made of. */
  lemma TextIsStructure(a: Bundle, b: Bundle)
    requires Clean(a) && Clean(b) && DistinctlyNamed(a)
    ensures ManifestText(a) == ManifestText(b) <==> SameStructure(a, b)
  {
    if ManifestText(a) == ManifestText(b) {
      TextReadsBack(a, b);
      EntriesGiveStructure(a, b);
    } else if SameStructure(a, b) {
      StructureGivesText(a, b);
    }
  }

  /** A head spelled "None" and an absent head read the same. */
  lemma NoneIsAmbiguous() returns (a: Bundle, b: Bundle)
    ensures DistinctlyNamed(a) && DistinctlyNamed(b)
    ensures ManifestText(a) == ManifestText(b) && !SameStructure(a, b)
  {
    var r, t := BundleBranch("b", "main", None, None), BundleBranch("b", "main", Some("None"), None);
    a := Bundle("w", [], [r], [], "");
    b := Bundle("w", [], [t], [], "");
    assert [r][..0] == [] && Sort(BranchById, [r]) == [r];
    assert [t][..0] == [] && Sort(BranchById, [t]) == [t];
    assert Entries(a) == [BranchEntry(r)] && Entries(b) == [BranchEntry(t)];
    assert Tokens(BranchEntry(r)) == Tokens(BranchEntry(t));
    assert AllTokens(Entries(a)) == AllTokens(Entries(b));
    assert multiset([r])[t] == 0;
  }

  // --- the text, written out ---

  function IdText(id: Option<Id>): string {
    if id.Some? then id.value else "None"
  }

  function Line(e: Entry): string {
    match e
    case CommitEntry(s) => "|c|" + s.id + "|" + s.hash
    case BranchEntry(b) => "|b|" + b.id + "|" + b.name + "|" + IdText(b.head) + "|" + IdText(b.forkedFrom)
    case MarkerEntry(m) => "|m|" + m.id + "|" + m.name + "|" + m.commit
  }

  function Lines(entries: seq<Entry>): string {
    if entries == [] then "" else Lines(entries[..|entries| - 1]) + Line(entries[|entries| - 1])
  }

  lemma LineIs(e: Entry)
    ensures Barred(Tokens(e)) == Line(e)
  {
    match e
    case CommitEntry(s) => CommitTokens(s);
    case BranchEntry(b) => BranchTokens(b);
    case MarkerEntry(m) => MarkerTokens(m);
  }

  lemma {:induction false} BarredIsLines(entries: seq<Entry>)
    ensures Barred(AllTokens(entries)) == Lines(entries)
  {
    if entries != [] {
      var init, last := entries[..|entries| - 1], entries[|entries| - 1];
      BarredIsLines(init);
      LineIs(last);
      SplitLast(entries);
      EntryAppend("", init, last);
      assert "" + Barred(AllTokens(entries)) == Barred(AllTokens(entries));
      assert "" + Barred(AllTokens(init)) == Barred(AllTokens(init));
    }
  }

  lemma SortedById(b: Bundle) returns (cs: seq<Stamp>, bs: seq<BundleBranch>, ms: seq<BundleMarker>)
    ensures Entries(b) == CommitEntries(cs) + BranchEntries(bs) + MarkerEntries(ms)
    ensures multiset(cs) == multiset(Stamps(b.commits)) && multiset(bs) == multiset(b.branches)
    ensures multiset(ms) == multiset(b.markers)
    ensures Sorted(StampById, cs) && Sorted(BranchById, bs) && Sorted(MarkerById, ms)
  {
    cs, bs, ms := Sort(StampById, Stamps(b.commits)), Sort(BranchById, b.branches), Sort(MarkerById, b.markers);
    IdOrders();
    SortIsStable(StampById, Stamps(b.commits));
    SortIsStable(BranchById, b.branches);
    SortIsStable(MarkerById, b.markers);
    SortContents(StampById, Stamps(b.commits));
    SortContents(BranchById, b.branches);
    SortContents(MarkerById, b.markers);
  }

  /** The manifest's text, written out: the name, then a line for each commit, each branch and each
      marker, in that order, each kind in order of id. */
  lemma ManifestReads(b: Bundle) returns (cs: seq<Stamp>, bs: seq<BundleBranch>, ms: seq<BundleMarker>)
    ensures ManifestText(b) == b.name + Lines(CommitEntries(cs) + BranchEntries(bs) + MarkerEntries(ms))
    ensures multiset(cs) == multiset(Stamps(b.commits)) && multiset(bs) == multiset(b.branches)
    ensures multiset(ms) == multiset(b.markers)
    ensures forall i, j :: 0 <= i < j < |cs| ==> StringLe(cs[i].id, cs[j].id)
    ensures forall i, j :: 0 <= i < j < |bs| ==> StringLe(bs[i].id, bs[j].id)
    ensures forall i, j :: 0 <= i < j < |ms| ==> StringLe(ms[i].id, ms[j].id)
  {
    cs, bs, ms := SortedById(b);
    BarredIsLines(Entries(b));
  }
}
