/** The text a commit hash is taken over, and what can be read back from it. */
module CommitHash {
  import opened Common

  /** A hash function from the text it is fed to the hex digest it gives. */
  type Digest = string -> string

  // --- one JSON object ---

  datatype Scan = Scan(depth: nat, quoted: bool, escaped: bool)

  function Next(at: Scan, c: char): Scan {
    if at.quoted then
      if at.escaped then at.(escaped := false)
      else if c == '\\' then at.(escaped := true)
      else if c == '"' then at.(quoted := false)
      else at
    else if c == '"' then at.(quoted := true)
    else if c == '{' || c == '[' then at.(depth := at.depth + 1)
    else if (c == '}' || c == ']') && at.depth > 0 then at.(depth := at.depth - 1)
    else at
  }

  function Scanned(s: string): Scan {
    if s == [] then Scan(0, false, false) else Next(Scanned(s[..|s| - 1]), s[|s| - 1])
  }

  /** `s` opens a brace that is closed by its last character and not before: the shape of
      every JSON object's text. */
  predicate IsObjectText(s: string) {
    && s != [] && s[0] == '{'
    && Scanned(s).depth == 0
    && forall k :: 0 < k < |s| ==> Scanned(s[..k]).depth > 0
  }

  lemma ObjectTextIsNoPrefix(a: string, b: string)
    requires IsObjectText(a) && IsObjectText(b)
    requires |a| <= |b| && a == b[..|a|]
    ensures a == b
  {
    assert b[..|b|] == b;
  }

  lemma ObjectTextIsFirst(a: string, u: string, b: string, v: string)
    requires IsObjectText(a) && IsObjectText(b) && a + u == b + v
    ensures a == b && u == v
  {
    var s, t := a + u, b + v;
    assert a == s[..|a|] && b == t[..|b|] && u == s[|a|..] && v == t[|b|..];
    if |a| <= |b| {
      assert a == b[..|a|];
      ObjectTextIsNoPrefix(a, b);
    } else {
      assert b == a[..|b|];
      ObjectTextIsNoPrefix(b, a);
    }
  }

  // --- the text of a commit ---

  predicate AllObjects(texts: seq<string>) {
    forall t :: t in texts ==> IsObjectText(t)
  }

  function Concat(texts: seq<string>): string {
    if texts == [] then [] else texts[0] + Concat(texts[1..])
  }

  /** What `compute_commit_hash` feeds to the digest. */
  function HashText(parent: Option<string>, texts: seq<string>): string {
    parent.Or("") + Concat(texts)
  }

  /** A SHA-256 hex digest as far as reading the text back goes. */
  predicate LooksLikeDigest(d: string) {
    |d| == 64 && '{' !in d
  }

  ghost predicate GivesDigests(h: Digest) {
    forall t :: LooksLikeDigest(h(t))
  }

  /** No two of these texts have the same hash. */
  ghost predicate NoCollision(h: Digest, texts: set<string>) {
    forall a, b :: a in texts && b in texts && h(a) == h(b) ==> a == b
  }

  lemma ConcatOpens(texts: seq<string>)
    requires AllObjects(texts)
    ensures Concat(texts) == [] <==> texts == []
    ensures texts != [] ==> Concat(texts)[0] == '{'
  {
    if texts != [] { assert IsObjectText(texts[0]); }
  }

  lemma {:induction false} ConcatReadsBack(texts: seq<string>, others: seq<string>)
    requires AllObjects(texts) && AllObjects(others)
    requires Concat(texts) == Concat(others)
    ensures texts == others
  {
    ConcatOpens(texts);
    ConcatOpens(others);
    if texts != [] {
      ObjectTextIsFirst(texts[0], Concat(texts[1..]), others[0], Concat(others[1..]));
      ConcatReadsBack(texts[1..], others[1..]);
      assert texts == [texts[0]] + texts[1..] && others == [others[0]] + others[1..];
    }
  }

  lemma ParentShows(p: Option<string>, texts: seq<string>)
    requires p.Some? ==> LooksLikeDigest(p.value)
    requires AllObjects(texts)
    ensures var t := HashText(p, texts); p.Some? <==> t != [] && t[0] != '{'
  {
    if p.Some? {
      assert HashText(p, texts)[0] == p.value[0];
    } else {
      assert HashText(p, texts) == Concat(texts);
      ConcatOpens(texts);
    }
  }

  /** The hashed text determines whether there is a parent, its hash, and every event in order. */
  lemma HashTextReadsBack(p: Option<string>, texts: seq<string>, q: Option<string>, others: seq<string>)
    requires p.Some? ==> LooksLikeDigest(p.value)
    requires q.Some? ==> LooksLikeDigest(q.value)
    requires AllObjects(texts) && AllObjects(others)
    requires HashText(p, texts) == HashText(q, others)
    ensures p == q && texts == others
  {
    ParentShows(p, texts);
    ParentShows(q, others);
    var t, u := HashText(p, texts), HashText(q, others);
    var n := if p.Some? then 64 else 0;
    assert p.Or("") == t[..n] && q.Or("") == u[..n];
    assert Concat(texts) == t[n..] && Concat(others) == u[n..];
    ConcatReadsBack(texts, others);
  }
}
