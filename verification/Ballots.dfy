/** Strict-plurality voting over one campaign's ballots. */
module Ballots {
  import opened Common
  import opened StableSort

  datatype Ballot = Ballot(voter: Id, choice: string)

  datatype Count = Count(choice: string, n: nat)

  ghost predicate OneEach(votes: seq<Ballot>) {
    votes != [] ==>
      (forall b :: b in votes[1..] ==> b.voter != votes[0].voter) && OneEach(votes[1..])
  }

  function VotersOf(votes: seq<Ballot>): set<Id> {
    set b | b in votes :: b.voter
  }

  /** Assigning to an insertion-ordered dictionary: a voter's new choice keeps the old place. */
  function Cast(votes: seq<Ballot>, p: Id, choice: string): seq<Ballot> {
    if votes == [] then [Ballot(p, choice)]
    else if votes[0].voter == p then [Ballot(p, choice)] + votes[1..]
    else [votes[0]] + Cast(votes[1..], p, choice)
  }

  function Withdraw(votes: seq<Ballot>, p: Id): seq<Ballot> {
    if votes == [] then []
    else if votes[0].voter == p then votes[1..]
    else [votes[0]] + Withdraw(votes[1..], p)
  }

  /** How many ballots are for `c`: the meaning of the tally. */
  function Support(votes: seq<Ballot>, c: string): nat {
    if votes == [] then 0
    else Support(votes[..|votes| - 1], c) + if votes[|votes| - 1].choice == c then 1 else 0
  }

  function FindCount(tally: seq<Count>, c: string): (f: Option<nat>)
    ensures f.Some? ==> f.value < |tally| && tally[f.value].choice == c
    ensures f == None ==> forall i :: 0 <= i < |tally| ==> tally[i].choice != c
  {
    if tally == [] then None
    else if tally[|tally| - 1].choice == c then Some(|tally| - 1)
    else FindCount(tally[..|tally| - 1], c)
  }

  /** One more ballot for `c` in an insertion-ordered counter. */
  function Bump(tally: seq<Count>, c: string): seq<Count> {
    match FindCount(tally, c)
    case Some(i) => tally[i := Count(c, tally[i].n + 1)]
    case None => tally + [Count(c, 1)]
  }

  function Tally(votes: seq<Ballot>): seq<Count> {
    if votes == [] then []
    else Bump(Tally(votes[..|votes| - 1]), votes[|votes| - 1].choice)
  }

  function ByCount(): (Count, Count) -> bool {
    (a: Count, b: Count) => a.n >= b.n
  }

  function MostCommon(tally: seq<Count>): seq<Count> {
    Sort(ByCount(), tally)
  }

  predicate Complete(ring: seq<Id>, votes: seq<Ballot>) {
    ring != [] && votes != [] && |votes| >= |ring|
  }

  function Decide(ring: seq<Id>, votes: seq<Ballot>): Option<string> {
    var ranked := MostCommon(Tally(votes));
    if Complete(ring, votes) && ranked != [] && (|ranked| == 1 || ranked[0].n > ranked[1].n)
    then Some(ranked[0].choice)
    else None
  }

  // --- the tally counts ---

  ghost predicate Counts(tally: seq<Count>, votes: seq<Ballot>) {
    && (forall i, j :: 0 <= i < j < |tally| ==> tally[i].choice != tally[j].choice)
    && (forall i :: 0 <= i < |tally| ==> tally[i].n == Support(votes, tally[i].choice) > 0)
    && (forall c :: FindCount(tally, c) == None ==> Support(votes, c) == 0)
  }

  /** A bump leaves every choice found that was found, and finds its own. */
  lemma BumpKeepsFound(tally: seq<Count>, c: string, d: string)
    ensures FindCount(tally, d).Some? || d == c ==> FindCount(Bump(tally, c), d).Some?
  {
    var found := FindCount(tally, d);
    if found.Some? {
      assert Bump(tally, c)[found.value].choice == d;
    } else if d == c {
      assert Bump(tally, c)[|tally|].choice == d;
    }
  }

  lemma SupportOfOneMore(front: seq<Ballot>, b: Ballot, d: string)
    ensures Support(front + [b], d) == Support(front, d) + if b.choice == d then 1 else 0
  {
    assert (front + [b])[..|front|] == front;
  }

  lemma BumpCounts(tally: seq<Count>, front: seq<Ballot>, b: Ballot)
    requires Counts(tally, front)
    ensures Counts(Bump(tally, b.choice), front + [b])
  {
    var bumped := Bump(tally, b.choice);
    forall i | 0 <= i < |bumped|
      ensures bumped[i].n == Support(front + [b], bumped[i].choice) > 0
    {
      SupportOfOneMore(front, b, bumped[i].choice);
    }
    forall d | FindCount(bumped, d) == None ensures Support(front + [b], d) == 0 {
      BumpKeepsFound(tally, b.choice, d);
      SupportOfOneMore(front, b, d);
    }
  }

  lemma {:induction false} TallyCounts(votes: seq<Ballot>)
    ensures Counts(Tally(votes), votes)
  {
    if votes != [] {
      var front, last := votes[..|votes| - 1], votes[|votes| - 1];
      TallyCounts(front);
      BumpCounts(Tally(front), front, last);
      assert front + [last] == votes;
    }
  }

  /** Strictly more support than any other choice. */
  ghost predicate StrictlyAhead(votes: seq<Ballot>, c: string) {
    forall d :: d != c ==> Support(votes, c) > Support(votes, d)
  }

  lemma {:induction false} NonemptyHasSupport(votes: seq<Ballot>)
    requires votes != []
    ensures Support(votes, votes[|votes| - 1].choice) > 0
  {}

  lemma RankedPermutes(votes: seq<Ballot>)
    ensures var t, r := Tally(votes), MostCommon(Tally(votes));
      NoDup(r) && forall x :: x in t <==> x in r
  {
    var t, r := Tally(votes), MostCommon(Tally(votes));
    TallyCounts(votes);
    SortContents(ByCount(), t);
    PermutedMembers(t, r);
    NoDupFromApart(t);
    PermutedNoDup(t, r);
  }

  lemma RankedDescends(votes: seq<Ballot>)
    ensures var r := MostCommon(Tally(votes));
      forall i, j :: 0 <= i < j < |r| ==> r[i].n >= r[j].n
  {
    var r := MostCommon(Tally(votes));
    assert TotalPreorder(ByCount());
    SortIsStable(ByCount(), Tally(votes));
    forall i, j | 0 <= i < j < |r| ensures r[i].n >= r[j].n {
      assert ByCount()(r[i], r[j]);
    }
  }

  lemma RankedIsTallied(votes: seq<Ballot>, i: nat)
    requires i < |MostCommon(Tally(votes))|
    ensures var ranked := MostCommon(Tally(votes))[i]; ranked.n == Support(votes, ranked.choice) > 0
  {
    var t, r := Tally(votes), MostCommon(Tally(votes));
    TallyCounts(votes);
    RankedPermutes(votes);
    assert r[i] in r;
    var k :| 0 <= k < |t| && t[k] == r[i];
  }

  lemma SupportedIsRanked(votes: seq<Ballot>, c: string) returns (i: nat)
    requires Support(votes, c) > 0
    ensures i < |MostCommon(Tally(votes))| && MostCommon(Tally(votes))[i].choice == c
  {
    var t, r := Tally(votes), MostCommon(Tally(votes));
    TallyCounts(votes);
    RankedPermutes(votes);
    var tallied := t[FindCount(t, c).value];
    assert tallied in t;
    i :| 0 <= i < |r| && r[i] == tallied;
  }

  /** The ranking lists each supported choice once, most supported first. */
  lemma RankedCounts(votes: seq<Ballot>)
    ensures var r := MostCommon(Tally(votes));
      && (forall i, j :: 0 <= i < j < |r| ==> r[i].n >= r[j].n && r[i].choice != r[j].choice)
      && (forall i :: 0 <= i < |r| ==> r[i].n == Support(votes, r[i].choice) > 0)
      && (forall c :: Support(votes, c) > 0 ==> exists i :: 0 <= i < |r| && r[i].choice == c)
  {
    var r := MostCommon(Tally(votes));
    RankedPermutes(votes);
    RankedDescends(votes);
    forall i | 0 <= i < |r| ensures r[i].n == Support(votes, r[i].choice) > 0 {
      RankedIsTallied(votes, i);
    }
    forall c | Support(votes, c) > 0 ensures exists i :: 0 <= i < |r| && r[i].choice == c {
      var i := SupportedIsRanked(votes, c);
    }
    forall i, j | 0 <= i < j < |r| ensures r[i].choice != r[j].choice {
      NoDupApart(r, i, j);
      assert r[i].n == Support(votes, r[i].choice) && r[j].n == Support(votes, r[j].choice);
    }
  }

  /** A complete round is decided for `c` exactly when `c` has strictly more ballots than every
      other choice. The order of the ballots plays no part. */
  lemma DecidedIffStrictPlurality(ring: seq<Id>, votes: seq<Ballot>, c: string)
    ensures Decide(ring, votes) == Some(c) <==> Complete(ring, votes) && StrictlyAhead(votes, c)
  {
    var r := MostCommon(Tally(votes));
    RankedCounts(votes);
    if votes != [] {
      NonemptyHasSupport(votes);
      if Decide(ring, votes) == Some(c) {
        forall d | d != c ensures Support(votes, c) > Support(votes, d) {
          if Support(votes, d) > 0 {
            var i :| 0 <= i < |r| && r[i].choice == d;
            assert i > 0 && r[0].choice == c;
            if i > 1 { assert r[1].n >= r[i].n; }
          }
        }
      } else if StrictlyAhead(votes, c) {
        assert Support(votes, c) > 0;
        var i :| 0 <= i < |r| && r[i].choice == c;
        if |r| > 1 { assert r[0].choice != r[1].choice; }
      }
    }
  }

  lemma {:induction false} SupportIsMultiplicity(votes: seq<Ballot>, c: string)
    ensures Support(votes, c) == multiset(Choices(votes))[c]
  {
    if votes != [] {
      SupportIsMultiplicity(votes[..|votes| - 1], c);
    }
  }

  function Choices(votes: seq<Ballot>): seq<string> {
    if votes == [] then [] else Choices(votes[..|votes| - 1]) + [votes[|votes| - 1].choice]
  }

  lemma {:induction false} ChoicesLength(votes: seq<Ballot>)
    ensures |Choices(votes)| == |votes|
  {
    if votes != [] { ChoicesLength(votes[..|votes| - 1]); }
  }

  /** Two rounds with the same choices, whoever cast them and in whatever order, decide alike. */
  lemma OrderDoesNotMatter(ring: seq<Id>, votes: seq<Ballot>, votes': seq<Ballot>)
    requires multiset(Choices(votes)) == multiset(Choices(votes'))
    ensures Decide(ring, votes) == Decide(ring, votes')
  {
    ChoicesLength(votes);
    ChoicesLength(votes');
    assert |votes| == |multiset(Choices(votes))| == |votes'|;
    forall c ensures Support(votes, c) == Support(votes', c) {
      SupportIsMultiplicity(votes, c);
      SupportIsMultiplicity(votes', c);
    }
    forall c: string
      ensures Decide(ring, votes) == Some(c) <==> Decide(ring, votes') == Some(c)
    {
      DecidedIffStrictPlurality(ring, votes, c);
      DecidedIffStrictPlurality(ring, votes', c);
    }
  }
}
