/** The loopwalker's codex: what was learned first, kept in a file or on a branch of its own. */
module Codex {
  import opened Common
  import opened CodexText
  import opened StableSort

  datatype Claim = Claim(id: Id, statement: string)

  type Known = map<Id, Entry>

  /** The first discovery of a clue is the one that counts. */
  function Recorded(m: Known, e: Entry): Known {
    if e.key in m then m else m[e.key := e]
  }

  function AllRecorded(m: Known, discoveries: seq<Entry>): Known {
    if discoveries == [] then m
    else Recorded(AllRecorded(m, discoveries[..|discoveries| - 1]), discoveries[|discoveries| - 1])
  }

  lemma {:induction false} FirstWriterWins(discoveries: seq<Entry>, i: nat)
    requires i < |discoveries|
    requires forall j :: 0 <= j < i ==> discoveries[j].key != discoveries[i].key
    ensures discoveries[i].key in AllRecorded(map[], discoveries)
    ensures AllRecorded(map[], discoveries)[discoveries[i].key] == discoveries[i]
  {
    var init := discoveries[..|discoveries| - 1];
    if i < |init| {
      FirstWriterWins(init, i);
    } else {
      NotYetKnown(init, discoveries[i].key);
    }
  }

  lemma {:induction false} NotYetKnown(discoveries: seq<Entry>, key: Id)
    requires forall j :: 0 <= j < |discoveries| ==> discoveries[j].key != key
    ensures key !in AllRecorded(map[], discoveries)
  {
    if discoveries != [] { NotYetKnown(discoveries[..|discoveries| - 1], key); }
  }

  // --- the branch ---

  function IsClue(c: Claim): bool {
    |c.id| >= 2 && c.id[..2] == "k:"
  }

  /** Reading one claim back; a number that does not parse stops the reading. */
  function LoadedOne(m: Known, c: Claim): Option<Known> {
    if !IsClue(c) then Some(m)
    else
      match Decode(c.id, c.statement)
      case Read(e) => Some(m[e.key := e])
      case BadNumber => None
  }

  function LoadedAll(m: Known, claims: seq<Claim>): Option<Known> {
    if claims == [] then Some(m)
    else
      var before := LoadedAll(m, claims[..|claims| - 1]);
      if before.None? then None else LoadedOne(before.value, claims[|claims| - 1])
  }

  function ClaimOf(e: Entry): Claim
    requires e.key in TITLES
  {
    Claim("k:" + e.key, Encode(e))
  }

  predicate ById(c: Claim, d: Claim) { StringLe(c.id, d.id) }

  /** A branch's claims, listed in order of id. */
  class Branch {
    var claims: seq<Claim>

    constructor (claims: seq<Claim>)
      ensures this.claims == claims
    {
      this.claims := claims;
    }

    method Append(c: Claim)
      modifies this
      ensures claims == old(claims) + [c]
    {
      claims := claims + [c];
    }

    function Listing(): seq<Claim>
      reads this
    {
      Sort(ById, claims)
    }
  }

  class BranchCodex {
    const store: Branch
    var entries: Known

    constructor (store: Branch)
      ensures this.store == store && entries == map[]
    {
      this.store, entries := store, map[];
    }

    method Load() returns (ok: bool)
      modifies this
      ensures ok <==> LoadedAll(old(entries), store.Listing()).Some?
      ensures ok ==> LoadedAll(old(entries), store.Listing()) == Some(entries)
    {
      var listing := store.Listing();
      for i := 0 to |listing|
        invariant listing == store.Listing() && LoadedAll(old(entries), listing[..i]) == Some(entries)
      {
        var c := listing[i];
        assert listing[..i + 1][..i] == listing[..i];
        if IsClue(c) {
          var d := Decode(c.id, c.statement);
          if d.BadNumber? {
            StaysBroken(old(entries), listing, i + 1);
            return false;
          }
          entries := entries[d.entry.key := d.entry];
        }
      }
      assert listing[..|listing|] == listing;
      ok := true;
    }

    /** The clue's title is written with it, so the clue must be one of the game's. */
    method Record(e: Entry) returns (added: bool)
      requires e.key in TITLES
      modifies this, store
      ensures added <==> e.key !in old(entries)
      ensures entries == Recorded(old(entries), e)
      ensures store.claims == old(store.claims) + if added then [ClaimOf(e)] else []
    {
      if e.key in entries {
        return false;
      }
      store.Append(ClaimOf(e));
      entries := entries[e.key := e];
      added := true;
    }
  }

  lemma {:induction false} StaysBroken(m: Known, claims: seq<Claim>, n: nat)
    requires n <= |claims| && LoadedAll(m, claims[..n]) == None
    ensures LoadedAll(m, claims) == None
    decreases |claims|
  {
    if n < |claims| {
      var init := claims[..|claims| - 1];
      assert init[..n] == claims[..n];
      StaysBroken(m, init, n);
    } else {
      assert claims[..n] == claims;
    }
  }

  ghost predicate KnownClues(discoveries: seq<Entry>) {
    forall e :: e in discoveries ==> e.key in TITLES
  }

  /** The claims a codex that started empty has written for these discoveries. */
  function Written(discoveries: seq<Entry>): seq<Claim>
    requires forall e :: e in discoveries ==> e.key in TITLES
  {
    if discoveries == [] then []
    else
      var init, last := discoveries[..|discoveries| - 1], discoveries[|discoveries| - 1];
      Written(init) + if last.key in AllRecorded(map[], init) then [] else [ClaimOf(last)]
  }

  predicate AllReadable(m: Known) {
    forall k :: k in m ==> ReadableLoop(m[k].loop)
  }

  /** What a new codex reads from the branch: every clue, each with its loop's name as far as it
      can be read. */
  function Readable(e: Entry): Entry
    requires First(e.loop + AT, AT).Some?
  {
    e.(loop := (e.loop + AT)[..First(e.loop + AT, AT).value])
  }

  ghost predicate DistinctIds(claims: seq<Claim>) {
    forall i, j :: 0 <= i < j < |claims| ==> claims[i].id != claims[j].id
  }

  ghost predicate AllClues(claims: seq<Claim>) {
    forall c :: c in claims ==> IsClue(c) && Decode(c.id, c.statement).Read?
  }

  /** What is read from clues with different ids does not depend on their order: each gives its
      own entry. */
  lemma {:induction false} LoadedByMembers(claims: seq<Claim>)
    requires DistinctIds(claims) && AllClues(claims)
    ensures LoadedAll(map[], claims).Some?
    ensures var m := LoadedAll(map[], claims).value;
            && (forall c :: c in claims ==> KeyOf(c.id) in m && m[KeyOf(c.id)] == Decode(c.id, c.statement).entry)
            && (forall k :: k in m ==> exists c :: c in claims && KeyOf(c.id) == k)
  {
    if claims != [] {
      var init, last := claims[..|claims| - 1], claims[|claims| - 1];
      SplitLast(claims);
      assert last in claims;
      LoadedByMembers(init);
      forall c | c in init ensures KeyOf(c.id) != KeyOf(last.id) { KeysApart(c.id, last.id); }
    }
  }

  lemma KeysApart(x: Id, y: Id)
    requires |x| >= 2 && x[..2] == "k:" && |y| >= 2 && y[..2] == "k:" && x != y
    ensures KeyOf(x) != KeyOf(y)
  {
    assert x == x[..2] + x[2..] && y == y[..2] + y[2..];
  }

  lemma ClaimReads(e: Entry)
    requires e.key in TITLES
    ensures First(e.loop + AT, AT).Some? && IsClue(ClaimOf(e)) && KeyOf(ClaimOf(e).id) == e.key
    ensures Decode(ClaimOf(e).id, ClaimOf(e).statement) == Read(Readable(e))
  {
    DecodeOfEncode(e);
    assert ("k:" + e.key)[..2] == "k:" && ("k:" + e.key)[2..] == e.key;
  }

  /** The branch holds one claim for each known clue. */
  lemma {:induction false} WrittenAreKnown(discoveries: seq<Entry>)
    requires KnownClues(discoveries)
    ensures var m, claims := AllRecorded(map[], discoveries), Written(discoveries);
            && (forall k :: k in m ==> k in TITLES && m[k].key == k && ClaimOf(m[k]) in claims)
            && (forall c :: c in claims ==> IsClue(c) && KeyOf(c.id) in m && c == ClaimOf(m[KeyOf(c.id)]))
            && DistinctIds(claims)
  {
    if discoveries != [] {
      var init, last := discoveries[..|discoveries| - 1], discoveries[|discoveries| - 1];
      WrittenAreKnown(init);
      ClaimReads(last);
    }
  }

  lemma ListingHasTheSame(claims: seq<Claim>)
    requires DistinctIds(claims)
    ensures DistinctIds(Sort(ById, claims)) && forall c :: c in Sort(ById, claims) <==> c in claims
  {
    var l := Sort(ById, claims);
    SortContents(ById, claims);
    PermutedMembers(l, claims);
    NoDupFromApart(claims);
    PermutedNoDup(claims, l);
    forall i, j | 0 <= i < j < |l| ensures l[i].id != l[j].id {
      NoDupApart(l, i, j);
      assert l[i] in claims && l[j] in claims;
    }
  }

  /** What a codex opened anew knows: every clue recorded, its first discovery, with the loop's
      name as far as it can be read. */
  lemma ReopenedReads(discoveries: seq<Entry>)
    requires KnownClues(discoveries)
    ensures LoadedAll(map[], Sort(ById, Written(discoveries))).Some?
    ensures var m, n := AllRecorded(map[], discoveries), LoadedAll(map[], Sort(ById, Written(discoveries))).value;
            && m.Keys == n.Keys
            && forall k :: k in m ==> First(m[k].loop + AT, AT).Some? && n[k] == Readable(m[k])
  {
    var claims := Written(discoveries);
    var l, m := Sort(ById, claims), AllRecorded(map[], discoveries);
    WrittenAreKnown(discoveries);
    ListingHasTheSame(claims);
    forall c | c in l ensures Decode(c.id, c.statement).Read? { ClaimReads(m[KeyOf(c.id)]); }
    LoadedByMembers(l);
    forall k | k in m ensures ClaimOf(m[k]) in l && First(m[k].loop + AT, AT).Some? { ClaimReads(m[k]); }
    forall k | k in m ensures LoadedAll(map[], l).value[k] == Readable(m[k]) { ClaimReads(m[k]); }
  }

  lemma ReadableIff(e: Entry)
    requires First(e.loop + AT, AT).Some?
    ensures Readable(e) == e <==> ReadableLoop(e.loop)
  {
    ReadableIffSplit(e.loop);
    assert (e.loop + AT)[..|e.loop|] == e.loop;
    assert |(e.loop + AT)[..First(e.loop + AT, AT).value]| == First(e.loop + AT, AT).value;
  }

  lemma SameIffReadable(m: Known, n: Known)
    requires m.Keys == n.Keys
    requires forall k :: k in m ==> First(m[k].loop + AT, AT).Some? && n[k] == Readable(m[k])
    ensures n == m <==> AllReadable(m)
  {
    forall k | k in m ensures n[k] == m[k] <==> ReadableLoop(m[k].loop) { ReadableIff(m[k]); }
    if n == m {
      forall k | k in m ensures ReadableLoop(m[k].loop) { assert n[k] == m[k]; }
    }
  }

  /** And so it knows just what was recorded exactly when every loop's name is readable. */
  lemma ReopenedKnowsTheSame(discoveries: seq<Entry>)
    requires KnownClues(discoveries)
    ensures LoadedAll(map[], Sort(ById, Written(discoveries))) == Some(AllRecorded(map[], discoveries))
       <==> AllReadable(AllRecorded(map[], discoveries))
  {
    ReopenedReads(discoveries);
    var loaded := LoadedAll(map[], Sort(ById, Written(discoveries)));
    SameIffReadable(AllRecorded(map[], discoveries), loaded.value);
  }

  // --- the file ---

  /** The entries in order of key, each once. */
  ghost predicate Lists(l: seq<Entry>, m: Known) {
    && (forall e :: e in l ==> e.key in m && m[e.key] == e)
    && (forall k :: k in m ==> m[k] in l)
    && forall i, j :: 0 <= i < j < |l| ==> StringLess(l[i].key, l[j].key)
  }

  function FromList(l: seq<Entry>): Known {
    if l == [] then map[] else FromList(l[..|l| - 1])[l[|l| - 1].key := l[|l| - 1]]
  }

  lemma {:induction false} FromListMembers(l: seq<Entry>)
    requires forall i, j :: 0 <= i < j < |l| ==> l[i].key != l[j].key
    ensures forall e :: e in l ==> e.key in FromList(l) && FromList(l)[e.key] == e
    ensures forall k :: k in FromList(l) ==> FromList(l)[k] in l && FromList(l)[k].key == k
  {
    if l != [] {
      SplitLast(l);
      FromListMembers(l[..|l| - 1]);
    }
  }

  lemma {:induction false} OwnKeys(l: seq<Entry>)
    ensures forall k :: k in FromList(l) ==> FromList(l)[k].key == k
  {
    if l != [] { OwnKeys(l[..|l| - 1]); }
  }

  /** Reading back a file of the known entries gives them all, unchanged. */
  lemma FileReadsBack(l: seq<Entry>, m: Known)
    requires Lists(l, m) && forall k :: k in m ==> m[k].key == k
    ensures FromList(l) == m
  {
    FromListMembers(l);
  }

  lemma {:induction false} LeastKey(keys: set<Id>) returns (k: Id)
    requires keys != {}
    ensures k in keys && forall j :: j in keys ==> StringLe(k, j)
    decreases keys
  {
    var x :| x in keys;
    StringLeTotal(x, x);
    if keys == {x} {
      k := x;
    } else {
      var y := LeastKey(keys - {x});
      StringLeTotal(x, y);
      k := if StringLe(x, y) then x else y;
      forall j | j in keys ensures StringLe(k, j) {
        if j != x && k == x { StringLeTransitive(x, y, j); }
      }
    }
  }

  class FileCodex {
    var file: Option<seq<Entry>>
    var entries: Known

    constructor (file: Option<seq<Entry>>)
      ensures Valid() && this.file == file && entries == map[]
    {
      this.file, entries := file, map[];
    }

    ghost predicate Valid()
      reads this
    {
      && (forall k :: k in entries ==> entries[k].key == k)
      && (entries != map[] ==> file.Some? && FromList(file.value) == entries)
    }

    /** Loading gives each clue under its own key, and what the file says of it. */
    method Load()
      requires Valid()
      modifies this`entries
      ensures Valid()
      ensures entries == if file.None? then old(entries) else FromList(file.value)
    {
      if file.Some? {
        entries := map[];
        for i := 0 to |file.value|
          invariant file == old(file) && entries == FromList(file.value[..i])
        {
          assert file.value[..i + 1][..i] == file.value[..i];
          entries := entries[file.value[i].key := file.value[i]];
        }
        assert file.value[..|file.value|] == file.value;
        OwnKeys(file.value);
      }
    }

    /** The entries in order of key. */
    method Entries() returns (l: seq<Entry>)
      requires forall k :: k in entries ==> entries[k].key == k
      ensures Lists(l, entries)
    {
      l := [];
      var rest := entries.Keys;
      while rest != {}
        invariant rest <= entries.Keys
        invariant forall e :: e in l ==> e.key in entries && e.key !in rest && entries[e.key] == e
        invariant forall k :: k in entries && k !in rest ==> entries[k] in l
        invariant forall e, k :: e in l && k in rest ==> StringLess(e.key, k)
        invariant forall i, j :: 0 <= i < j < |l| ==> StringLess(l[i].key, l[j].key)
        decreases rest
      {
        ghost var least := LeastKey(rest);
        var k :| k in rest && forall j :: j in rest ==> StringLe(k, j);
        l := l + [entries[k]];
        rest := rest - {k};
      }
    }

    /** A new clue is kept and the whole file rewritten. */
    method Record(e: Entry) returns (added: bool)
      requires Valid()
      modifies this
      ensures Valid() && entries == Recorded(old(entries), e)
      ensures added <==> e.key !in old(entries)
      ensures !added ==> file == old(file)
    {
      if e.key in entries {
        return false;
      }
      entries := entries[e.key := e];
      var l := Entries();
      file := Some(l);
      FileReadsBack(l, entries);
      added := true;
    }
  }
}
