/** Exactly when a member who ends a turn can hold it again before somebody who stayed connected. */
module Overtaking {
  import opened Common
  import opened StableSort
  import opened TurnRing
  import opened TurnOrder
  import opened SeatOrder

  predicate Seated(seats: Option<seq<Id>>, p: Id) {
    seats.Some? && p in seats.value
  }

  /** `p` stays connected, and `h` ends up with the turn without `p` ever having had it. */
  ghost predicate Overtakes(seats: Option<seq<Id>>, r: Roster, ops: seq<Op>, p: Id, h: Id) {
    StaysConnected(seats, r, ops, p) && Holder(Run(seats, r, ops)) == Some(h) && !HoldsAtSomePoint(seats, r, ops, p)
  }

  // --- who is never overtaken ---

  /** The turn reaches `p` before it comes round to the front of the ring. */
  ghost predicate Reaches(r: Roster, p: Id) {
    p in r.ring && r.turn <= IndexOf(r.ring, p)
  }

  /** The steps that change who is in the ring. */
  predicate Arrives(r: Roster, op: Op) { op.Join? && op.p !in r.conns }
  predicate Parts(r: Roster, op: Op) { op.Leave? && op.p in r.conns && r.conns[op.p] == 1 }

  lemma ShiftStillReaches(r: Roster, j: Roster, k: nat, p: Id)
    requires Reaches(r, p) && p in j.ring
    requires j.turn == Shifted(r.turn, k) && IndexOf(j.ring, p) == Shifted(IndexOf(r.ring, p), k)
    ensures Reaches(j, p)
  {}

  lemma ClosingStillReaches(r: Roster, d: Roster, k: nat, p: Id)
    requires Reaches(r, p) && r.turn != IndexOf(r.ring, p) && ClosedUp(r, d, k) && p in d.ring
    ensures Reaches(d, p)
  {}

  lemma JoinStillReaches(seats: Option<seq<Id>>, r: Roster, q: Id, p: Id)
    requires Sound(seats, r) && Reaches(r, p) && q !in r.conns
    ensures Reaches(Joined(seats, r, q), p)
  {
    var k := PositionsAfterJoin(seats, r, q);
    ShiftStillReaches(r, Joined(seats, r, q), k, p);
  }

  lemma LeaveStillReaches(r: Roster, q: Id, p: Id)
    requires WellFormed(r) && Reaches(r, p) && r.turn != IndexOf(r.ring, p)
    requires q in r.conns && r.conns[q] == 1 && p in Departed(r, q).ring
    ensures Reaches(Departed(r, q), p)
  {
    var k := PositionsAfterLeave(r, q);
    ClosingStillReaches(r, Departed(r, q), k, p);
  }

  lemma StepStillReaches(seats: Option<seq<Id>>, r: Roster, op: Op, p: Id)
    requires Sound(seats, r) && Sound(seats, Step(seats, r, op))
    requires Reaches(r, p) && r.turn != IndexOf(r.ring, p) && p in Step(seats, r, op).ring
    ensures Reaches(Step(seats, r, op), p)
  {
    if Arrives(r, op) {
      JoinStillReaches(seats, r, op.p, p);
    } else if Parts(r, op) {
      LeaveStillReaches(r, op.p, p);
    }
  }

  /** The turn reaches `p`, and `h` is either past its own place already or behind `p`. */
  ghost predicate OutOfTheWay(r: Roster, p: Id, h: Id) {
    && Reaches(r, p)
    && (h in r.ring ==> IndexOf(r.ring, h) < r.turn || IndexOf(r.ring, p) < IndexOf(r.ring, h))
  }

  /** Whoever has no seat is queued at the end of the ring. */
  lemma UnseatedGoesLast(seats: Option<seq<Id>>, r: Roster, h: Id)
    requires Sound(seats, r) && !Seated(seats, h) && h !in r.conns
    ensures Joined(seats, r, h).ring == r.ring + [h]
    ensures h in r.ring + [h] && IndexOf(r.ring + [h], h) == |r.ring|
    ensures forall p :: p in r.ring ==> p in r.ring + [h] && IndexOf(r.ring + [h], p) == IndexOf(r.ring, p)
  {
    if seats.Some? {
      ReseatIsInsert(seats.value, r.ring, h);
      UnseatedLast(seats.value, r.ring, h);
    }
    NoDupExtended(r.ring, h);
    IndexIs(r.ring + [h], |r.ring|);
    forall p | p in r.ring ensures p in r.ring + [h] && IndexOf(r.ring + [h], p) == IndexOf(r.ring, p) {
      IndexIs(r.ring + [h], IndexOf(r.ring, p));
    }
  }

  lemma NewcomerSplicesIn(seats: Option<seq<Id>>, r: Roster, q: Id)
    requires Sound(seats, r) && q !in r.conns
    ensures forall x :: x in Joined(seats, r, q).ring <==> x in r.ring || x == q
  {
    var k := NewcomerSpliced(seats, r, q);
    SplicedMembers(r.ring, k, q);
  }

  lemma ShiftStaysOutOfTheWay(r: Roster, j: Roster, k: nat, p: Id, h: Id)
    requires OutOfTheWay(r, p, h) && j.turn == Shifted(r.turn, k)
    requires p in j.ring && IndexOf(j.ring, p) == Shifted(IndexOf(r.ring, p), k)
    requires h in j.ring ==> h in r.ring && IndexOf(j.ring, h) == Shifted(IndexOf(r.ring, h), k)
    ensures OutOfTheWay(j, p, h)
  {}

  lemma ClosingStaysOutOfTheWay(r: Roster, d: Roster, k: nat, p: Id, h: Id)
    requires OutOfTheWay(r, p, h) && r.turn != IndexOf(r.ring, p) && ClosedUp(r, d, k) && p in d.ring
    ensures OutOfTheWay(d, p, h)
  {}

  lemma ItsOwnJoinIsOutOfTheWay(seats: Option<seq<Id>>, r: Roster, p: Id, h: Id)
    requires Sound(seats, r) && !Seated(seats, h) && OutOfTheWay(r, p, h) && h !in r.conns
    ensures OutOfTheWay(Joined(seats, r, h), p, h)
  {
    UnseatedGoesLast(seats, r, h);
    JoinStillReaches(seats, r, h, p);
  }

  lemma JoinStaysOutOfTheWay(seats: Option<seq<Id>>, r: Roster, q: Id, p: Id, h: Id)
    requires Sound(seats, r) && OutOfTheWay(r, p, h) && q !in r.conns && q != h
    ensures OutOfTheWay(Joined(seats, r, q), p, h)
  {
    NewcomerSplicesIn(seats, r, q);
    var k := PositionsAfterJoin(seats, r, q);
    ShiftStaysOutOfTheWay(r, Joined(seats, r, q), k, p, h);
  }

  lemma LeaveStaysOutOfTheWay(r: Roster, q: Id, p: Id, h: Id)
    requires WellFormed(r) && OutOfTheWay(r, p, h) && r.turn != IndexOf(r.ring, p)
    requires q in r.conns && r.conns[q] == 1 && p in Departed(r, q).ring
    ensures OutOfTheWay(Departed(r, q), p, h)
  {
    var k := PositionsAfterLeave(r, q);
    ClosingStaysOutOfTheWay(r, Departed(r, q), k, p, h);
  }

  lemma StepStaysOutOfTheWay(seats: Option<seq<Id>>, r: Roster, op: Op, p: Id, h: Id)
    requires Sound(seats, r) && Sound(seats, Step(seats, r, op)) && !Seated(seats, h)
    requires OutOfTheWay(r, p, h) && r.turn != IndexOf(r.ring, p) && p in Step(seats, r, op).ring
    ensures OutOfTheWay(Step(seats, r, op), p, h)
  {
    if Arrives(r, op) {
      if op.p == h {
        ItsOwnJoinIsOutOfTheWay(seats, r, p, h);
      } else {
        JoinStaysOutOfTheWay(seats, r, op.p, p, h);
      }
    } else if Parts(r, op) {
      LeaveStaysOutOfTheWay(r, op.p, p, h);
    }
  }

  lemma {:induction false} OutOfTheWayHoldsFirst(seats: Option<seq<Id>>, r: Roster, ops: seq<Op>, p: Id, h: Id)
    requires Sound(seats, r) && !Seated(seats, h) && p != h && OutOfTheWay(r, p, h)
    requires StaysConnected(seats, r, ops, p) && Holder(Run(seats, r, ops)) == Some(h)
    ensures HoldsAtSomePoint(seats, r, ops, p)
    decreases |ops|
  {
    if Holder(r) != Some(p) {
      NoWaitIsHolding(r, p);
      if ops == [] {
        IndexIs(r.ring, r.turn);
      } else {
        StepKeepsSound(seats, r, ops[0]);
        StepStaysOutOfTheWay(seats, r, ops[0], p, h);
        OutOfTheWayHoldsFirst(seats, Step(seats, r, ops[0]), ops[1..], p, h);
      }
    }
  }

  /** The turn reaches the unseated `p`, and is past `h`'s seat. */
  ghost predicate PastTheSeat(ss: seq<Id>, r: Roster, p: Id, h: Id) {
    Reaches(r, p) && Holder(r).Some? && Rank(ss, h) < Rank(ss, Holder(r).value)
  }

  lemma StepStaysPastTheSeat(ss: seq<Id>, r: Roster, op: Op, p: Id, h: Id)
    requires Sound(Some(ss), r) && Sound(Some(ss), Step(Some(ss), r, op))
    requires PastTheSeat(ss, r, p, h) && r.turn != IndexOf(r.ring, p) && p in Step(Some(ss), r, op).ring
    ensures PastTheSeat(ss, Step(Some(ss), r, op), p, h)
  {
    StepStillReaches(Some(ss), r, op, p);
    assert p in Step(Some(ss), r, op).conns;
    HolderAfterStep(ss, r, op);
    RingRanks(ss, r.ring, r.turn, r.turn + 1);
  }

  lemma {:induction false} PastTheSeatHoldsFirst(ss: seq<Id>, r: Roster, ops: seq<Op>, p: Id, h: Id)
    requires Sound(Some(ss), r) && PastTheSeat(ss, r, p, h)
    requires StaysConnected(Some(ss), r, ops, p) && Holder(Run(Some(ss), r, ops)) == Some(h)
    ensures HoldsAtSomePoint(Some(ss), r, ops, p)
    decreases |ops|
  {
    if Holder(r) != Some(p) && ops != [] {
      StepKeepsSound(Some(ss), r, ops[0]);
      StepStaysPastTheSeat(ss, r, ops[0], p, h);
      PastTheSeatHoldsFirst(ss, Step(Some(ss), r, ops[0]), ops[1..], p, h);
    }
  }

  /** With a seat, `h` cannot get ahead of anybody by dropping out: after it ends a turn, every
      other member who stays connected, seated or not, holds the turn before `h` does. */
  lemma SeatedNoOvertaking(ss: seq<Id>, r: Roster, ops: seq<Op>, p: Id, h: Id)
    requires Sound(Some(ss), r) && Holder(r) == Some(h) && h in ss && p != h
    requires StaysConnected(Some(ss), Rotated(r), ops, p)
    requires Holder(Run(Some(ss), Rotated(r), ops)) == Some(h)
    ensures HoldsAtSomePoint(Some(ss), Rotated(r), ops, p)
  {
    if p in ss {
      SeatedHoldBeforeSeated(ss, r, ops, p, h);
    } else {
      StepKeepsSound(Some(ss), r, Commit);
      assert p in r.ring;
      UnseatedIsReached(ss, r, p, h);
      PastTheSeatHoldsFirst(ss, Rotated(r), ops, p, h);
    }
  }

  lemma UnseatedIsReached(ss: seq<Id>, r: Roster, p: Id, h: Id)
    requires Sound(Some(ss), r) && Holder(r) == Some(h) && h in ss && p !in ss && p in r.ring
    ensures PastTheSeat(ss, Rotated(r), p, h)
  {
    var i := IndexOf(r.ring, p);
    if i < r.turn { RingRanks(ss, r.ring, i, r.turn); }
    RingRanks(ss, r.ring, r.turn, r.turn + 1);
    NoDupApart(r.ring, r.turn, r.turn + 1);
    SameSeat(ss, h, r.ring[r.turn + 1]);
  }

  // --- who can be ---

  lemma Prepend(seats: Option<seq<Id>>, r: Roster, op: Op, rest: seq<Op>, p: Id, h: Id)
    requires p in r.conns && Holder(r) != Some(p) && Overtakes(seats, Step(seats, r, op), rest, p, h)
    ensures Overtakes(seats, r, [op] + rest, p, h)
  {
    assert ([op] + rest)[0] == op && ([op] + rest)[1..] == rest;
  }

  /** Commits alone bring the turn to `h`, who is ahead of it, and not to `p`, who is behind. */
  lemma {:induction false} CommitsReach(seats: Option<seq<Id>>, r: Roster, p: Id, h: Id) returns (ops: seq<Op>)
    requires WellFormed(r) && p in r.ring && h in r.ring
    requires IndexOf(r.ring, p) < r.turn <= IndexOf(r.ring, h)
    ensures Overtakes(seats, r, ops, p, h)
    decreases IndexOf(r.ring, h) - r.turn
  {
    NoWaitIsHolding(r, p);
    NoWaitIsHolding(r, h);
    if r.turn == IndexOf(r.ring, h) {
      ops := [];
    } else {
      var rest := CommitsReach(seats, Rotated(r), p, h);
      Prepend(seats, r, Commit, rest, p, h);
      ops := [Commit] + rest;
    }
  }

  /** Having left, `h` joins at the end of the ring, past everybody the turn has still to reach. */
  lemma RejoiningReaches(seats: Option<seq<Id>>, r: Roster, p: Id, h: Id) returns (ops: seq<Op>)
    requires Sound(seats, r) && !Seated(seats, h) && h !in r.conns && p in r.ring
    requires IndexOf(r.ring, p) < r.turn
    ensures Overtakes(seats, r, ops, p, h)
  {
    NoWaitIsHolding(r, p);
    UnseatedGoesLast(seats, r, h);
    IndexIs(r.ring, r.turn);
    StepKeepsSound(seats, r, Join(h));
    var rest := CommitsReach(seats, Joined(seats, r, h), p, h);
    Prepend(seats, r, Join(h), rest, p, h);
    ops := [Join(h)] + rest;
  }

  /** `h` closes its connections one after the other, and comes back. */
  lemma {:induction false} LeavingReaches(seats: Option<seq<Id>>, r: Roster, p: Id, h: Id) returns (ops: seq<Op>)
    requires Sound(seats, r) && !Seated(seats, h) && p in r.ring && h in r.ring
    requires IndexOf(r.ring, p) < IndexOf(r.ring, h) < r.turn
    ensures Overtakes(seats, r, ops, p, h)
    decreases r.conns[h]
  {
    NoWaitIsHolding(r, p);
    StepKeepsSound(seats, r, Leave(h));
    var rest;
    if r.conns[h] > 1 {
      rest := LeavingReaches(seats, Departed(r, h), p, h);
    } else {
      RemovedNoDup(r.ring, h);
      RemovedIndex(r.ring, h, p);
      rest := RejoiningReaches(seats, Departed(r, h), p, h);
    }
    Prepend(seats, r, Leave(h), rest, p, h);
    ops := [Leave(h)] + rest;
  }

  /** `h` has just ended its turn and can get it back before `p` does, who is connected: it has no
      seat, `p` is in front of it in the ring, and somebody else is behind it. */
  predicate CanOvertake(seats: Option<seq<Id>>, r: Roster, p: Id, h: Id)
    requires p in r.ring && h in r.ring
  {
    !Seated(seats, h) && IndexOf(r.ring, p) < IndexOf(r.ring, h) < |r.ring| - 1
  }

  /** Then dropping out and rejoining does it. */
  lemma ReconnectingOvertakes(seats: Option<seq<Id>>, r: Roster, p: Id, h: Id) returns (ops: seq<Op>)
    requires Sound(seats, r) && Holder(r) == Some(h) && p in r.ring && h in r.ring && CanOvertake(seats, r, p, h)
    ensures Overtakes(seats, Rotated(r), ops, p, h)
  {
    NoWaitIsHolding(r, h);
    StepKeepsSound(seats, r, Commit);
    ops := LeavingReaches(seats, Rotated(r), p, h);
  }

  lemma CommitGetsOutOfTheWay(seats: Option<seq<Id>>, r: Roster, p: Id, h: Id)
    requires WellFormed(r) && Holder(r) == Some(h) && p in r.ring && h in r.ring && p != h
    requires IndexOf(r.ring, p) < IndexOf(r.ring, h) ==> IndexOf(r.ring, h) == |r.ring| - 1
    ensures OutOfTheWay(Rotated(r), p, h)
  {
    NoWaitIsHolding(r, h);
  }

  lemma NobodyElseIsOvertaken(seats: Option<seq<Id>>, r: Roster, ops: seq<Op>, p: Id, h: Id)
    requires Sound(seats, r) && Holder(r) == Some(h) && p in r.ring && h in r.ring && p != h
    requires !CanOvertake(seats, r, p, h)
    ensures !Overtakes(seats, Rotated(r), ops, p, h)
  {
    if Overtakes(seats, Rotated(r), ops, p, h) {
      if Seated(seats, h) {
        SeatedNoOvertaking(seats.value, r, ops, p, h);
      } else {
        CommitGetsOutOfTheWay(seats, r, p, h);
        StepKeepsSound(seats, r, Commit);
        OutOfTheWayHoldsFirst(seats, Rotated(r), ops, p, h);
      }
    }
  }

  /** For every sound roster, some continuation in which `p` stays connected lets `h` hold the turn
      again before `p` does exactly when `h` is unseated, behind `p`, and not last. */
  lemma OvertakenIff(seats: Option<seq<Id>>, r: Roster, p: Id, h: Id)
    requires Sound(seats, r) && Holder(r) == Some(h) && p in r.ring && h in r.ring && p != h
    ensures (exists ops :: Overtakes(seats, Rotated(r), ops, p, h)) <==> CanOvertake(seats, r, p, h)
  {
    if CanOvertake(seats, r, p, h) {
      var ops := ReconnectingOvertakes(seats, r, p, h);
    }
    forall ops | !CanOvertake(seats, r, p, h) ensures !Overtakes(seats, Rotated(r), ops, p, h) {
      NobodyElseIsOvertaken(seats, r, ops, p, h);
    }
  }
}
