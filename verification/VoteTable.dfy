/** Voting at a table whose members come and go. */
module VoteTable {
  import opened Common
  import opened TurnRing
  import opened TurnOrder
  import opened Ballots

  /** A campaign's turn ring with the ballots of its open round. */
  datatype Table = Table(roster: Roster, votes: seq<Ballot>)

  /** A decided round is cleared. */
  function Settle(t: Table): Table {
    if Decide(t.roster.ring, t.votes).Some? then t.(votes := []) else t
  }

  /** `p` votes; the round is decided if that completes it. */
  function Voted(t: Table, p: Id, choice: string): Table {
    Settle(t.(votes := Cast(t.votes, p, choice)))
  }

  /** A departure drops the ballot of somebody no longer in the ring. */
  function Unseated(t: Table, p: Id): Table {
    var roster := Departed(t.roster, p);
    Table(roster, if p in roster.ring then t.votes else Withdraw(t.votes, p))
  }

  datatype TableOp = Turn(op: Op) | Vote(p: Id, choice: string)

  /** One step as the server drives it: only a member votes, and a departure is followed by a
      re-check of the round. */
  function TableStep(seats: Option<seq<Id>>, t: Table, op: TableOp): Table {
    match op
    case Turn(Join(p)) => t.(roster := Joined(seats, t.roster, p))
    case Turn(Leave(p)) => Settle(Unseated(t, p))
    case Turn(Commit) => t.(roster := Rotated(t.roster))
    case Vote(p, choice) => if p in t.roster.ring then Voted(t, p, choice) else t
  }

  function TableRun(seats: Option<seq<Id>>, t: Table, ops: seq<TableOp>): Table
    decreases |ops|
  {
    if ops == [] then t else TableRun(seats, TableStep(seats, t, ops[0]), ops[1..])
  }

  ghost predicate VotersSeated(t: Table) {
    forall b :: b in t.votes ==> b.voter in t.roster.ring
  }

  ghost predicate TableInv(t: Table) {
    && WellFormed(t.roster)
    && OneEach(t.votes)
    && VotersSeated(t)
    && Decide(t.roster.ring, t.votes) == None
  }

  // --- ballots as a set of voters ---

  lemma {:induction false} CastKeepsOneEach(votes: seq<Ballot>, p: Id, choice: string)
    requires OneEach(votes)
    ensures OneEach(Cast(votes, p, choice))
    ensures forall b :: b in Cast(votes, p, choice) <==> b == Ballot(p, choice) || (b in votes && b.voter != p)
  {
    if votes != [] {
      assert votes == [votes[0]] + votes[1..];
      if votes[0].voter != p { CastKeepsOneEach(votes[1..], p, choice); }
      var d := if votes[0].voter == p then votes[1..] else Cast(votes[1..], p, choice);
      assert Cast(votes, p, choice)[1..] == d;
    }
  }

  lemma {:induction false} WithdrawKeepsOneEach(votes: seq<Ballot>, p: Id)
    requires OneEach(votes)
    ensures OneEach(Withdraw(votes, p))
    ensures forall b :: b in Withdraw(votes, p) <==> b in votes && b.voter != p
  {
    if votes != [] {
      assert votes == [votes[0]] + votes[1..];
      if votes[0].voter != p {
        WithdrawKeepsOneEach(votes[1..], p);
        assert Withdraw(votes, p)[1..] == Withdraw(votes[1..], p);
      }
    }
  }

  lemma {:induction false} VotersCount(votes: seq<Ballot>)
    requires OneEach(votes)
    ensures |VotersOf(votes)| == |votes|
  {
    if votes != [] {
      VotersCount(votes[1..]);
      assert votes == [votes[0]] + votes[1..];
      assert VotersOf(votes) == VotersOf(votes[1..]) + {votes[0].voter};
    }
  }

  lemma {:induction false} RingCount(ring: seq<Id>)
    requires NoDup(ring)
    ensures |set p | p in ring| == |ring|
  {
    if ring != [] {
      var init := ring[..|ring| - 1];
      RingCount(init);
      assert ring == init + [ring[|ring| - 1]];
      assert (set p | p in ring) == (set p | p in init) + {ring[|ring| - 1]};
    }
  }

  lemma SubsetOfSameSize<T>(a: set<T>, b: set<T>)
    requires a <= b && |a| >= |b|
    ensures a == b
  {
    assert |b - a| == |b| - |a|;
  }

  // --- every reachable table ---

  /** Only members vote, each once, and no open round is both complete and decidable. */
  lemma StepKeepsTableInv(seats: Option<seq<Id>>, t: Table, op: TableOp)
    requires TableInv(t)
    ensures TableInv(TableStep(seats, t, op))
  {
    match op {
      case Turn(Join(p)) => JoinKeepsTableInv(seats, t, p);
      case Turn(Leave(p)) => LeaveKeepsTableInv(t, p);
      case Turn(Commit) =>
      case Vote(p, choice) => if p in t.roster.ring { VoteKeepsTableInv(t, p, choice); }
    }
  }

  lemma SettleLeavesUndecided(t: Table)
    requires WellFormed(t.roster) && OneEach(t.votes) && VotersSeated(t)
    ensures TableInv(Settle(t))
  {}

  lemma VoteKeepsTableInv(t: Table, p: Id, choice: string)
    requires TableInv(t) && p in t.roster.ring
    ensures TableInv(Voted(t, p, choice))
  {
    CastKeepsOneEach(t.votes, p, choice);
    SettleLeavesUndecided(t.(votes := Cast(t.votes, p, choice)));
  }

  lemma LeaveKeepsTableInv(t: Table, p: Id)
    requires TableInv(t)
    ensures TableInv(Settle(Unseated(t, p)))
  {
    LeaveKeepsWellFormed(t.roster, p);
    DepartedMembers(t.roster, p);
    WithdrawKeepsOneEach(t.votes, p);
    SettleLeavesUndecided(Unseated(t, p));
  }

  lemma DepartedMembers(r: Roster, p: Id)
    requires WellFormed(r)
    ensures forall q :: q in r.ring && q != p ==> q in Departed(r, p).ring
  {
    if p in r.conns && r.conns[p] == 1 { RemovedNoDup(r.ring, p); }
  }

  /** More members cannot decide what was not decided. */
  lemma StaysUndecided(ring: seq<Id>, longer: seq<Id>, votes: seq<Ballot>)
    requires Decide(ring, votes) == None && |longer| >= |ring| && (ring == [] ==> votes == [])
    ensures Decide(longer, votes) == None
  {}

  lemma JoinKeepsMembers(seats: Option<seq<Id>>, r: Roster, p: Id)
    requires WellFormed(r)
    ensures WellFormed(Joined(seats, r, p)) && |Joined(seats, r, p).ring| >= |r.ring|
    ensures forall q :: q in r.ring ==> q in Joined(seats, r, p).ring
  {
    JoinKeepsWellFormed(seats, r, p);
    if p !in r.conns {
      NoDupExtended(r.ring, p);
      ReseatPermutes(seats, r.ring + [p]);
    }
  }

  lemma JoinKeepsTableInv(seats: Option<seq<Id>>, t: Table, p: Id)
    requires TableInv(t)
    ensures TableInv(t.(roster := Joined(seats, t.roster, p)))
  {
    JoinKeepsMembers(seats, t.roster, p);
    assert t.votes != [] ==> t.votes[0].voter in t.roster.ring;
    StaysUndecided(t.roster.ring, Joined(seats, t.roster, p).ring, t.votes);
  }

  lemma {:induction false} ReachableTable(seats: Option<seq<Id>>, t: Table, ops: seq<TableOp>)
    requires TableInv(t)
    ensures TableInv(TableRun(seats, t, ops))
    decreases |ops|
  {
    if ops != [] {
      StepKeepsTableInv(seats, t, ops[0]);
      ReachableTable(seats, TableStep(seats, t, ops[0]), ops[1..]);
    }
  }

  /** So the comparison of two lengths means what it is for: a round is complete exactly when
      everybody connected has a ballot in it. */
  lemma CompleteIffAllVoted(t: Table)
    requires TableInv(t)
    ensures Complete(t.roster.ring, t.votes) <==>
      t.roster.ring != [] && forall p :: p in t.roster.ring ==> p in VotersOf(t.votes)
  {
    var members := set p | p in t.roster.ring;
    VotersCount(t.votes);
    RingCount(t.roster.ring);
    assert VotersOf(t.votes) <= members;
    if Complete(t.roster.ring, t.votes) {
      SubsetOfSameSize(VotersOf(t.votes), members);
    }
    if t.roster.ring != [] && forall p :: p in t.roster.ring ==> p in VotersOf(t.votes) {
      assert members == VotersOf(t.votes);
    }
  }

  // --- a ballot from outside the ring ---

  /** These ballots are cast, one after the other. */
  function CastAll(votes: seq<Ballot>, more: seq<Ballot>): seq<Ballot> {
    if more == [] then votes
    else Cast(CastAll(votes, more[..|more| - 1]), more[|more| - 1].voter, more[|more| - 1].choice)
  }

  lemma {:induction false} CastAllVoters(votes: seq<Ballot>, more: seq<Ballot>)
    requires OneEach(votes)
    ensures OneEach(CastAll(votes, more))
    ensures VotersOf(CastAll(votes, more)) == VotersOf(votes) + VotersOf(more)
  {
    if more != [] {
      var init, last := more[..|more| - 1], more[|more| - 1];
      CastAllVoters(votes, init);
      CastKeepsOneEach(CastAll(votes, init), last.voter, last.choice);
      CastVoters(CastAll(votes, init), last);
      OneMoreVoter(init, last);
      SplitLast(more);
    }
  }

  lemma OneMoreVoter(votes: seq<Ballot>, b: Ballot)
    ensures VotersOf(votes + [b]) == VotersOf(votes) + {b.voter}
  {
    assert b in votes + [b];
    forall v | v in VotersOf(votes) ensures v in VotersOf(votes + [b]) {
      var c :| c in votes && c.voter == v;
      assert c in votes + [b];
    }
  }

  lemma CastVoters(votes: seq<Ballot>, b: Ballot)
    requires OneEach(votes)
    ensures VotersOf(Cast(votes, b.voter, b.choice)) == VotersOf(votes) + {b.voter}
  {
    CastKeepsOneEach(votes, b.voter, b.choice);
    var cast := Cast(votes, b.voter, b.choice);
    assert b in cast;
    forall v | v in VotersOf(votes) && v != b.voter ensures v in VotersOf(cast) {
      var c :| c in votes && c.voter == v;
      assert c in cast;
    }
  }

  /** Votes of members other than `p` complete the round. */
  ghost predicate CompletesWithout(ring: seq<Id>, votes: seq<Ballot>, more: seq<Ballot>, p: Id) {
    (forall b :: b in more ==> b.voter in ring && b.voter != p) && Complete(ring, CastAll(votes, more))
  }

  function BallotsFrom(voters: seq<Id>): seq<Ballot> {
    seq(|voters|, i requires 0 <= i < |voters| => Ballot(voters[i], ""))
  }

  lemma BallotsOf(voters: seq<Id>)
    ensures VotersOf(BallotsFrom(voters)) == set v | v in voters
  {
    forall v | v in voters ensures v in VotersOf(BallotsFrom(voters)) {
      var i :| 0 <= i < |voters| && voters[i] == v;
      assert BallotsFrom(voters)[i].voter == v;
    }
  }

  /** All but one member, and somebody else, are as many as the ring. */
  lemma EnoughVoters(ring: seq<Id>, p: Id, x: Id, voted: set<Id>)
    requires NoDup(ring) && p in ring && x !in ring && x in voted
    requires forall q :: q in ring && q != p ==> q in voted
    ensures |voted| >= |ring|
  {
    var members := set q | q in ring;
    RingCount(ring);
    FitsIn(members - {p} + {x}, voted);
    assert |members - {p}| == |members| - 1;
  }

  lemma OutsiderStandsIn(ring: seq<Id>, votes: seq<Ballot>, p: Id, x: Id) returns (more: seq<Ballot>)
    requires NoDup(ring) && OneEach(votes) && p in ring && x in VotersOf(votes) && x !in ring
    ensures CompletesWithout(ring, votes, more, p)
  {
    var others := Remove(ring, p);
    RemovedNoDup(ring, p);
    more := BallotsFrom(others);
    BallotsOf(others);
    CastAllVoters(votes, more);
    VotersCount(CastAll(votes, more));
    EnoughVoters(ring, p, x, VotersOf(CastAll(votes, more)));
    forall b | b in more ensures b.voter in ring && b.voter != p { assert b.voter in VotersOf(more); }
  }

  lemma FitsIn<T>(a: set<T>, b: set<T>)
    requires a <= b
    ensures |a| <= |b|
  {
    assert b == a + (b - a);
  }

  lemma MembersAreTooFew(ring: seq<Id>, votes: seq<Ballot>, more: seq<Ballot>, p: Id)
    requires NoDup(ring) && OneEach(votes) && p in ring && p !in VotersOf(votes)
    requires forall v :: v in VotersOf(votes) ==> v in ring
    ensures !CompletesWithout(ring, votes, more, p)
  {
    if CompletesWithout(ring, votes, more, p) {
      CastAllVoters(votes, more);
      var all := set q | q in ring;
      var voted := VotersOf(CastAll(votes, more));
      RingCount(ring);
      VotersCount(CastAll(votes, more));
      FitsIn(voted, all - {p});
    }
  }

  /** A connected member who has not voted can be left out, the votes of the other members
      completing the round, exactly when some voter is not in the ring. */
  lemma LeftOutIffOutsider(ring: seq<Id>, votes: seq<Ballot>, p: Id)
    requires NoDup(ring) && OneEach(votes) && p in ring && p !in VotersOf(votes)
    ensures (exists more :: CompletesWithout(ring, votes, more, p)) <==> exists x :: x in VotersOf(votes) && x !in ring
  {
    if x :| x in VotersOf(votes) && x !in ring {
      var more := OutsiderStandsIn(ring, votes, p, x);
    } else {
      forall more ensures !CompletesWithout(ring, votes, more, p) {
        MembersAreTooFew(ring, votes, more, p);
      }
    }
  }

  /** With an outsider's ballot it would not: here one of the two connected has not voted, and the
      round counts as complete. */
  lemma OutsiderCompletesRound(p: Id, q: Id, x: Id)
    requires p != q && x != p && x != q
    ensures var t := Table(Roster([p, q], 0, map[p := 1, q := 1]), [Ballot(p, "yes")]);
      && TableInv(t) && x !in t.roster.ring && q !in VotersOf(Cast(t.votes, x, "yes"))
      && Complete(t.roster.ring, Cast(t.votes, x, "yes"))
  {
    NoDupFromApart([p, q]);
    var t := Table(Roster([p, q], 0, map[p := 1, q := 1]), [Ballot(p, "yes")]);
    assert t.votes[1..] == [] && !Complete(t.roster.ring, t.votes);
    assert Cast(t.votes, x, "yes") == [Ballot(p, "yes"), Ballot(x, "yes")];
  }

  // --- what becomes of the ballots ---

  /** `after` holds the ballot `p` just cast, and of the earlier ones those of everybody else. */
  predicate CastInto(votes: seq<Ballot>, p: Id, choice: string, after: seq<Ballot>) {
    && (forall b :: b in after ==> b == Ballot(p, choice) || (b in votes && b.voter != p))
    && Ballot(p, choice) in after && (forall b :: b in votes && b.voter != p ==> b in after)
  }

  /** A vote that decides nothing leaves every ballot there, tied or not; one that decides leaves
      none. */
  lemma VoteKeepsBallots(t: Table, p: Id, choice: string)
    requires OneEach(t.votes)
    ensures var cast, u := Cast(t.votes, p, choice), Voted(t, p, choice);
      && OneEach(cast) && CastInto(t.votes, p, choice, cast)
      && (u.votes == [] || u.votes == cast) && u.roster == t.roster
      && (u.votes == [] <==> exists c :: Complete(t.roster.ring, cast) && StrictlyAhead(cast, c))
  {
    var cast := Cast(t.votes, p, choice);
    CastKeepsOneEach(t.votes, p, choice);
    if c :| Complete(t.roster.ring, cast) && StrictlyAhead(cast, c) {
      DecidedIffStrictPlurality(t.roster.ring, cast, c);
    }
    if Decide(t.roster.ring, cast).Some? {
      DecidedIffStrictPlurality(t.roster.ring, cast, Decide(t.roster.ring, cast).value);
    }
  }

  /** The choice `q` last voted for, if it voted. */
  function LastChoice(votes: seq<Ballot>, q: Id): Option<string> {
    if votes == [] then None
    else if votes[|votes| - 1].voter == q then Some(votes[|votes| - 1].choice)
    else LastChoice(votes[..|votes| - 1], q)
  }

  /** Votes of members, one after the other, as steps at the table. */
  function VotesOf(cast: seq<Ballot>): seq<TableOp> {
    seq(|cast|, i requires 0 <= i < |cast| => Vote(cast[i].voter, cast[i].choice))
  }

  /** None of these votes decided the round: some ballot is there after each. */
  ghost predicate StaysOpen(seats: Option<seq<Id>>, t: Table, cast: seq<Ballot>)
    decreases |cast|
  {
    cast == [] ||
      var u := TableStep(seats, t, Vote(cast[0].voter, cast[0].choice));
      u.votes != [] && StaysOpen(seats, u, cast[1..])
  }

  ghost predicate ByMembers(ring: seq<Id>, cast: seq<Ballot>) {
    forall b :: b in cast ==> b.voter in ring
  }

  lemma {:induction false} LastChoiceFrom(cast: seq<Ballot>, q: Id)
    requires cast != []
    ensures LastChoice(cast, q) ==
      if LastChoice(cast[1..], q).Some? then LastChoice(cast[1..], q)
      else if cast[0].voter == q then Some(cast[0].choice) else None
  {
    if |cast| > 1 {
      assert cast[1..][..|cast| - 2] == cast[..|cast| - 1][1..];
      LastChoiceFrom(cast[..|cast| - 1], q);
    } else {
      assert cast[1..] == [] && cast[..0] == [];
    }
  }

  /** The ballots of an open round are each voter's last vote, and of those who have not voted
      since, the one that was there. */
  lemma {:induction false} OpenRoundHoldsLastVotes(seats: Option<seq<Id>>, t: Table, cast: seq<Ballot>, q: Id, choice: string)
    requires TableInv(t) && ByMembers(t.roster.ring, cast) && StaysOpen(seats, t, cast)
    ensures var u := TableRun(seats, t, VotesOf(cast));
      && TableInv(u) && u.roster == t.roster
      && (Ballot(q, choice) in u.votes <==>
            if LastChoice(cast, q).Some? then LastChoice(cast, q) == Some(choice) else Ballot(q, choice) in t.votes)
    decreases |cast|
  {
    if cast != [] {
      var b := cast[0];
      var op := Vote(b.voter, b.choice);
      var u := TableStep(seats, t, op);
      assert b in cast && VotesOf(cast)[0] == op && VotesOf(cast)[1..] == VotesOf(cast[1..]);
      StepKeepsTableInv(seats, t, op);
      VoteKeepsBallots(t, b.voter, b.choice);
      OpenRoundHoldsLastVotes(seats, u, cast[1..], q, choice);
      LastChoiceFrom(cast, q);
    }
  }

  /** So a tie is not final: in an open round that everybody has voted in, the next vote of a member
      that puts some choice strictly ahead of every other decides the round for it, and no other
      vote does. */
  lemma ChangedVoteDecides(seats: Option<seq<Id>>, t: Table, cast: seq<Ballot>, p: Id, choice: string, c: string)
    requires TableInv(t) && ByMembers(t.roster.ring, cast) && StaysOpen(seats, t, cast) && p in t.roster.ring
    ensures var u := TableRun(seats, t, VotesOf(cast));
      var after := Cast(u.votes, p, choice);
      && TableInv(u) && CastInto(u.votes, p, choice, after)
      && (Decide(u.roster.ring, after) == Some(c) <==> Complete(t.roster.ring, after) && StrictlyAhead(after, c))
      && (Complete(t.roster.ring, u.votes) ==> Complete(t.roster.ring, after))
      && (TableStep(seats, u, Vote(p, choice)).votes == [] <==>
            exists d :: Complete(t.roster.ring, after) && StrictlyAhead(after, d))
  {
    OpenRoundHoldsLastVotes(seats, t, cast, p, choice);
    var u := TableRun(seats, t, VotesOf(cast));
    VoteKeepsBallots(u, p, choice);
    DecidedIffStrictPlurality(u.roster.ring, Cast(u.votes, p, choice), c);
    CastNoFewer(u.votes, p, choice);
  }

  lemma {:induction false} CastNoFewer(votes: seq<Ballot>, p: Id, choice: string)
    ensures |Cast(votes, p, choice)| >= |votes|
  {
    if votes != [] && votes[0].voter != p { CastNoFewer(votes[1..], p, choice); }
  }

  lemma TwoAtTable(a: Id, b: Id, x: string)
    requires a != b
    ensures var t := Table(Roster([a, b], 0, map[a := 1, b := 1]), []);
      TableInv(t) && TableInv(TableStep(None, t, Vote(a, x)))
      && TableStep(None, t, Vote(a, x)) == t.(votes := [Ballot(a, x)])
  {
    NoDupFromApart([a, b]);
    var t := Table(Roster([a, b], 0, map[a := 1, b := 1]), []);
    assert !Complete([a, b], [Ballot(a, x)]);
    StepKeepsTableInv(None, t, Vote(a, x));
  }

  lemma TwoThatDiffer(a: Id, b: Id, x: string, y: string)
    requires a != b && x != y
    ensures Cast([Ballot(a, x)], b, y) == [Ballot(a, x), Ballot(b, y)]
    ensures Decide([a, b], [Ballot(a, x), Ballot(b, y)]) == None
  {
    var v1, v2 := Ballot(a, x), Ballot(b, y);
    assert Cast([v1], b, y) == [v1] + Cast([v1][1..], b, y) == [v1, v2];
    SupportOfTwo(v1, v2, x);
    SupportOfTwo(v1, v2, y);
    TiedIsOpen([a, b], [v1, v2], x, y);
  }

  lemma TwoThatAgree(a: Id, b: Id, x: string, y: string)
    requires a != b
    ensures Cast([Ballot(a, x), Ballot(b, y)], b, x) == [Ballot(a, x), Ballot(b, x)]
    ensures Decide([a, b], [Ballot(a, x), Ballot(b, x)]) == Some(x)
  {
    var v1, v2, w := Ballot(a, x), Ballot(b, y), [Ballot(a, x), Ballot(b, x)];
    assert [v1, v2][1..] == [v2] && Cast([v1, v2], b, x) == [v1] + Cast([v2], b, x);
    assert Cast([v2], b, x) == [Ballot(b, x)] + [v2][1..] == [Ballot(b, x)];
    forall d | d != x ensures Support(w, x) > Support(w, d) {
      SupportOfTwo(v1, w[1], x);
      SupportOfTwo(v1, w[1], d);
    }
    DecidedIffStrictPlurality([a, b], w, x);
  }

  /** For one: `a` for x and `b` for y is a tie, both ballots stay, and when `b` changes to x the round
      is decided for x. */
  lemma TieThenDecided(a: Id, b: Id, x: string, y: string)
    requires a != b && x != y
    ensures var t := Table(Roster([a, b], 0, map[a := 1, b := 1]), []);
      var u := TableStep(None, TableStep(None, t, Vote(a, x)), Vote(b, y));
      && TableInv(t) && TableInv(u) && u.votes == [Ballot(a, x), Ballot(b, y)]
      && Decide(u.roster.ring, Cast(u.votes, b, x)) == Some(x) && TableStep(None, u, Vote(b, x)).votes == []
  {
    TwoAtTable(a, b, x);
    TwoThatDiffer(a, b, x, y);
    TwoThatAgree(a, b, x, y);
    var t1 := Table(Roster([a, b], 0, map[a := 1, b := 1]), [Ballot(a, x)]);
    StepKeepsTableInv(None, t1, Vote(b, y));
  }

  lemma SupportOfTwo(b: Ballot, c: Ballot, d: string)
    ensures Support([b, c], d) == (if b.choice == d then 1 else 0) + if c.choice == d then 1 else 0
  {
    assert [b, c][..1] == [b] && [b][..0] == [];
    assert Support([b], d) == Support([], d) + if b.choice == d then 1 else 0;
  }

  lemma TiedIsOpen(ring: seq<Id>, votes: seq<Ballot>, x: string, y: string)
    requires x != y && Support(votes, x) == Support(votes, y) && forall b :: b in votes ==> b.choice == x || b.choice == y
    ensures Decide(ring, votes) == None
  {
    if Decide(ring, votes).Some? {
      var c := Decide(ring, votes).value;
      DecidedIffStrictPlurality(ring, votes, c);
      AheadIsSupported(votes, c);
    }
  }

  lemma AheadIsSupported(votes: seq<Ballot>, c: string)
    requires votes != [] && StrictlyAhead(votes, c)
    ensures exists b :: b in votes && b.choice == c
  {
    var d := votes[0].choice;
    assert d != c ==> Support(votes, c) > Support(votes, d);
    if forall b :: b in votes ==> b.choice != c { NoneForNoSupport(votes, c); }
  }

  lemma {:induction false} NoneForNoSupport(votes: seq<Ballot>, c: string)
    requires forall b :: b in votes ==> b.choice != c
    ensures Support(votes, c) == 0
  {
    if votes != [] {
      assert votes[|votes| - 1] in votes;
      NoneForNoSupport(votes[..|votes| - 1], c);
    }
  }
}
