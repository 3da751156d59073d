/** The turn arbiters: per-campaign dictionaries updated by every join, leave, commit and vote. */
module Session {
  import opened Common
  import opened TurnRing
  import opened TurnOrder
  import opened Ballots
  import opened VoteTable

  datatype AdmitDecision = Admitted | NotYourTurn | Rejected | Queued

  function Get<V>(m: map<Id, V>, k: Id, default: V): V {
    if k in m then m[k] else default
  }

  /** The index of the captured holder in the new ring, or the front if there is none. */
  function Following(ring: seq<Id>, holder: Option<Id>): nat {
    if holder.Some? && holder.value in ring then IndexOf(ring, holder.value) else 0
  }

  /** What a join writes into the three dictionaries is the join step. */
  lemma JoinLanded(seats: Option<seq<Id>>, before: Roster, after: Roster, p: Id)
    requires WellFormed(before)
    requires after.conns == before.conns[p := Get(before.conns, p, 0) + 1]
    requires after.conns[p] == 1 ==>
      && after.ring == Reseat(seats, before.ring + [p])
      && after.turn == Following(after.ring, Holder(before))
    requires after.conns[p] != 1 ==> after.ring == before.ring && after.turn == before.turn
    ensures after == Joined(seats, before, p) && WellFormed(after)
  {
    JoinKeepsWellFormed(seats, before, p);
  }

  /** Round-robin arbitration. */
  class PartyArbiter {
    var ring: map<Id, seq<Id>>
    var turn: map<Id, nat>
    var conns: map<Id, map<Id, int>>

    function RosterOf(c: Id): Roster
      reads this
    {
      Roster(Get(ring, c, []), Get(turn, c, 0), Get(conns, c, map[]))
    }

    ghost predicate Valid()
      reads this
    {
      forall c :: WellFormed(RosterOf(c))
    }

    constructor ()
      ensures Valid() && forall c :: RosterOf(c) == EMPTY
    {
      ring, turn, conns := map[], map[], map[];
    }

    function HolderOf(c: Id): Option<Id>
      reads this
    {
      var r := Get(ring, c, []);
      if r == [] then None else Some(r[Wrapped(Get(turn, c, 0), |r|)])
    }

    /** Touching one campaign leaves every other one as valid as it was. */
    twostate lemma OneCampaignChanged(c: Id)
      requires old(Valid()) && WellFormed(RosterOf(c))
      requires forall d :: d != c ==> Get(ring, d, []) == old(Get(ring, d, []))
      requires forall d :: d != c ==> Get(turn, d, 0) == old(Get(turn, d, 0))
      requires forall d :: d != c ==> Get(conns, d, map[]) == old(Get(conns, d, map[]))
      ensures Valid()
      ensures forall d :: d != c ==> RosterOf(d) == old(RosterOf(d))
    {
      forall d ensures WellFormed(RosterOf(d)) {
        if d != c {
          assert WellFormed(old(RosterOf(d)));
          assert RosterOf(d) == old(RosterOf(d));
        }
      }
    }

    /** Only the holder acts; an empty table admits anyone. `proposals` is the proposal-window
        arbiter, which surfaces everybody else's intent instead of refusing it. */
    method Admit(c: Id, p: Id, proposals: bool) returns (d: AdmitDecision)
      requires Valid()
      ensures d == Admitted <==> RosterOf(c).ring == [] || Holder(RosterOf(c)) == Some(p)
      ensures d != Admitted ==> d == if proposals then Queued else NotYourTurn
    {
      var holder := HolderOf(c);
      if holder == None || holder == Some(p) {
        return Admitted;
      }
      d := if proposals then Queued else NotYourTurn;
    }

    method NoteJoined(c: Id, p: Id, seats: Option<seq<Id>>)
      requires Valid()
      modifies this
      ensures Valid()
      ensures RosterOf(c) == Joined(seats, old(RosterOf(c)), p)
      ensures forall d :: d != c ==> RosterOf(d) == old(RosterOf(d))
    {
      ghost var before := RosterOf(c);
      assert WellFormed(before);
      var n := CountIn(c, p);
      if n == 1 {
        TakePlace(c, p, seats);
      }
      JoinLanded(seats, before, RosterOf(c), p);
      OneCampaignChanged(c);
    }

    /** One more connection of `p`. */
    method CountIn(c: Id, p: Id) returns (n: int)
      modifies this`conns
      ensures Get(conns, c, map[]) == old(Get(conns, c, map[]))[p := n]
      ensures n == Get(old(Get(conns, c, map[])), p, 0) + 1
      ensures forall d :: d != c ==> Get(conns, d, map[]) == old(Get(conns, d, map[]))
    {
      var live := Get(conns, c, map[]);
      n := Get(live, p, 0) + 1;
      conns := conns[c := live[p := n]];
    }

    /** One connection of `p` less; whether another is left. */
    method CountOut(c: Id, p: Id) returns (stays: bool)
      modifies this`conns
      ensures var live := old(Get(conns, c, map[]));
        && stays == (p in live && live[p] > 1)
        && Get(conns, c, map[]) == if stays then live[p := live[p] - 1] else live - {p}
      ensures forall d :: d != c ==> Get(conns, d, map[]) == old(Get(conns, d, map[]))
    {
      stays := false;
      var live := Get(conns, c, map[]);
      if p in live {
        live := live[p := live[p] - 1];
        if live[p] > 0 {
          stays := true;
        } else {
          live := live - {p};
        }
        conns := conns[c := live];
      }
      assert p !in live ==> live == live - {p};
    }

    /** The place of `p` in the ring is given up, and the turn index closes up behind it. */
    method GiveUpPlace(c: Id, p: Id)
      requires p in Get(ring, c, [])
      modifies this`ring, this`turn
      ensures var members := old(Get(ring, c, []));
        var cur := if IndexOf(members, p) < old(Get(turn, c, 0)) then old(Get(turn, c, 0)) - 1 else old(Get(turn, c, 0));
        && Get(ring, c, []) == Remove(members, p)
        && Get(turn, c, 0) == if Remove(members, p) == [] then 0 else Wrapped(cur, |Remove(members, p)|)
      ensures forall d :: d != c ==>
        Get(ring, d, []) == old(Get(ring, d, [])) && Get(turn, d, 0) == old(Get(turn, d, 0))
    {
      var members := Get(ring, c, []);
      var idx := IndexOf(members, p);
      members := Remove(members, p);
      ring := ring[c := members];
      if members == [] {
        turn := turn - {c};
      } else {
        var cur := Get(turn, c, 0);
        if idx < cur {
          cur := cur - 1;
        }
        turn := turn[c := Wrapped(cur, |members|)];
      }
    }

    /** The rest of a first join: `p` takes a place in the ring and the turn index follows its
        holder there. */
    method TakePlace(c: Id, p: Id, seats: Option<seq<Id>>)
      modifies this`ring, this`turn
      ensures Get(ring, c, []) == Reseat(seats, old(Get(ring, c, [])) + [p])
      ensures Get(turn, c, 0) == Following(Reseat(seats, old(Get(ring, c, [])) + [p]), old(HolderOf(c)))
      ensures forall d :: d != c ==>
        Get(ring, d, []) == old(Get(ring, d, [])) && Get(turn, d, 0) == old(Get(turn, d, 0))
    {
      var members := Get(ring, c, []);
      var holder := HolderOf(c);
      members := members + [p];
      members := Reseat(seats, members);
      ring := ring[c := members];
      turn := turn[c := Following(members, holder)];
    }

    method NoteLeft(c: Id, p: Id)
      requires Valid()
      modifies this
      ensures Valid()
      ensures RosterOf(c) == Departed(old(RosterOf(c)), p)
      ensures forall d :: d != c ==> RosterOf(d) == old(RosterOf(d))
    {
      ghost var before := RosterOf(c);
      LeaveKeepsWellFormed(before, p);
      assert WellFormed(before);
      var stays := CountOut(c, p);
      if !stays && p in Get(ring, c, []) {
        GiveUpPlace(c, p);
      }
      assert RosterOf(c) == Departed(old(RosterOf(c)), p);
      OneCampaignChanged(c);
    }

    method BeatCommitted(c: Id)
      requires Valid()
      modifies this
      ensures Valid()
      ensures RosterOf(c) == Rotated(old(RosterOf(c)))
      ensures forall d :: d != c ==> RosterOf(d) == old(RosterOf(d))
    {
      var members := Get(ring, c, []);
      assert WellFormed(Rotated(RosterOf(c)));
      if members != [] {
        turn := turn[c := Wrapped(Get(turn, c, 0) + 1, |members|)];
      }
      assert RosterOf(c) == Rotated(old(RosterOf(c)));
      OneCampaignChanged(c);
    }
  }

  datatype VoteOutcome = VoteOutcome(tally: seq<Count>, decided: Option<string>)

  lemma SomethingIsRanked(ballots: seq<Ballot>)
    requires ballots != []
    ensures MostCommon(Tally(ballots)) != []
  {
    RankedCounts(ballots);
    NonemptyHasSupport(ballots);
  }

  /** Once everyone connected has voted, the choice with strictly more ballots than every other
      decides. */
  method Decision(roster: seq<Id>, ballots: seq<Ballot>) returns (decided: Option<string>)
    ensures decided == Decide(roster, ballots)
    ensures forall c :: decided == Some(c) <==> Complete(roster, ballots) && StrictlyAhead(ballots, c)
  {
    decided := None;
    if roster != [] && ballots != [] && |ballots| >= |roster| {
      var ranked := MostCommon(Tally(ballots));
      SomethingIsRanked(ballots);
      if |ranked| == 1 || ranked[0].n > ranked[1].n {
        decided := Some(ranked[0].choice);
      }
    }
    forall c ensures decided == Some(c) <==> Complete(roster, ballots) && StrictlyAhead(ballots, c) {
      DecidedIffStrictPlurality(roster, ballots, c);
    }
  }

  /** Voting on top of round-robin. */
  class VoteArbiter {
    const party: PartyArbiter
    var votes: map<Id, seq<Ballot>>

    function TableOf(c: Id): Table
      reads this, party
    {
      Table(party.RosterOf(c), Get(votes, c, []))
    }

    ghost predicate Valid()
      reads this, party
    {
      party.Valid() && forall c :: TableInv(TableOf(c))
    }

    constructor ()
      ensures Valid() && fresh(party) && forall c :: TableOf(c) == Table(EMPTY, [])
    {
      party := new PartyArbiter();
      votes := map[];
    }

    /** One campaign's ballots, dropped when there are none. */
    method SetBallots(c: Id, ballots: seq<Ballot>)
      modifies this`votes
      ensures Get(votes, c, []) == ballots
      ensures forall d :: d != c ==> Get(votes, d, []) == Get(old(votes), d, [])
    {
      votes := if ballots == [] then votes - {c} else votes[c := ballots];
    }

    method TallyAndDecide(c: Id) returns (o: VoteOutcome)
      requires party.Valid()
      modifies this`votes
      ensures TableOf(c) == Settle(old(TableOf(c)))
      ensures forall d :: d != c ==> TableOf(d) == old(TableOf(d))
      ensures o == VoteOutcome(Tally(old(TableOf(c)).votes), Decide(old(TableOf(c)).roster.ring, old(TableOf(c)).votes))
      ensures TableOf(c).votes == if o.decided == None then old(TableOf(c).votes) else []
    {
      var ballots := Get(votes, c, []);
      var decided := Decision(Get(party.ring, c, []), ballots);
      if decided != None {
        SetBallots(c, []);
      }
      o := VoteOutcome(Tally(ballots), decided);
    }

    /** A ballot is recorded, whoever casts it, and the round is decided by strict plurality if
        that was the last one missing. A member's vote keeps the table in order. */
    method CastVote(c: Id, p: Id, choice: string) returns (o: VoteOutcome)
      requires party.Valid()
      modifies this`votes
      ensures TableOf(c) == Voted(old(TableOf(c)), p, choice)
      ensures forall d :: d != c ==> TableOf(d) == old(TableOf(d))
      ensures o.decided == Decide(old(TableOf(c)).roster.ring, Cast(old(TableOf(c)).votes, p, choice))
      ensures o.tally == Tally(Cast(old(TableOf(c)).votes, p, choice))
      ensures o.decided.Some? ==> TableOf(c).votes == []
      ensures o.decided == None && old(OneEach(TableOf(c).votes)) ==> OneEach(TableOf(c).votes)
      ensures o.decided == None && old(OneEach(TableOf(c).votes)) ==> forall b :: b in TableOf(c).votes <==>
        b == Ballot(p, choice) || (b in old(TableOf(c).votes) && b.voter != p)
      ensures old(Valid()) && p in old(TableOf(c)).roster.ring ==> Valid()
    {
      ghost var t := TableOf(c);
      SetBallots(c, Cast(Get(votes, c, []), p, choice));
      assert TableOf(c) == t.(votes := Cast(t.votes, p, choice));
      o := TallyAndDecide(c);
      if OneEach(t.votes) { CastKeepsOneEach(t.votes, p, choice); }
      if old(Valid()) && p in t.roster.ring {
        VoteKeepsTableInv(t, p, choice);
        OtherTablesHold(c);
      }
    }

    /** A table in order at `c`, and the others as they were, are all in order. */
    twostate lemma OtherTablesHold(c: Id)
      requires old(Valid()) && party.Valid() && TableInv(TableOf(c))
      requires forall d :: d != c ==> TableOf(d) == old(TableOf(d))
      ensures Valid()
    {
      forall d ensures TableInv(TableOf(d)) {
        if d != c { assert TableInv(old(TableOf(d))); }
      }
    }

    method ResolvePending(c: Id) returns (o: Option<VoteOutcome>)
      requires party.Valid()
      modifies this`votes
      ensures TableOf(c) == Settle(old(TableOf(c)))
      ensures forall d :: d != c ==> TableOf(d) == old(TableOf(d))
      ensures o.Some? <==> Decide(old(TableOf(c)).roster.ring, old(TableOf(c)).votes).Some?
      ensures o.Some? ==>
        o.value.decided == Decide(old(TableOf(c)).roster.ring, old(TableOf(c)).votes)
      ensures TableOf(c).votes == if o == None then old(TableOf(c).votes) else []
    {
      if Get(votes, c, []) == [] {
        return None;
      }
      var outcome := TallyAndDecide(c);
      o := if outcome.decided != None then Some(outcome) else None;
    }

    method NoteLeft(c: Id, p: Id)
      requires Valid()
      modifies this`votes, party
      ensures party.Valid()
      ensures TableOf(c) == Unseated(old(TableOf(c)), p)
      ensures forall d :: d != c ==> TableOf(d) == old(TableOf(d))
      ensures forall b :: b in TableOf(c).votes <==>
        b in old(TableOf(c).votes) && (b.voter != p || p in TableOf(c).roster.ring)
    {
      ghost var t := TableOf(c);
      WithdrawKeepsOneEach(t.votes, p);
      party.NoteLeft(c, p);
      var ballots := Get(votes, c, []);
      var members := Get(party.ring, c, []);
      if ballots != [] && p in VotersOf(ballots) && p !in members {
        SetBallots(c, Withdraw(ballots, p));
      } else if p !in members {
        WithdrawAbsent(ballots, p);
      }
    }

    /** What the server does when a connection closes: the departure and the re-check. */
    method Disconnect(c: Id, p: Id) returns (o: Option<VoteOutcome>)
      requires Valid()
      modifies this`votes, party
      ensures Valid()
      ensures TableOf(c) == Settle(Unseated(old(TableOf(c)), p))
      ensures forall d :: d != c ==> TableOf(d) == old(TableOf(d))
      ensures o.Some? ==> TableOf(c).votes == [] && o.value.decided.Some?
      ensures o == None ==> forall b :: b in TableOf(c).votes <==>
        b in old(TableOf(c).votes) && (b.voter != p || p in TableOf(c).roster.ring)
    {
      LeaveKeepsTableInv(TableOf(c), p);
      NoteLeft(c, p);
      o := ResolvePending(c);
      OtherTablesHold(c);
    }
  }

  lemma {:induction false} WithdrawAbsent(votes: seq<Ballot>, p: Id)
    requires p !in VotersOf(votes)
    ensures Withdraw(votes, p) == votes
  {
    if votes != [] {
      assert votes == [votes[0]] + votes[1..];
      assert votes[0] in votes;
      WithdrawAbsent(votes[1..], p);
    }
  }
}
