/** What the turn ring guarantees over whole runs of joins, leaves and commits. */
module TurnOrder {
  import opened Common
  import opened StableSort
  import opened TurnRing

  /** The ring is exactly the connected participants, without repeats, and in seat order. */
  ghost predicate Sound(seats: Option<seq<Id>>, r: Roster) {
    WellFormed(r) && InSeatOrder(seats, r.ring)
  }

  /** A newcomer's splice position, and the turn index following its holder past it. */
  lemma NewcomerSpliced(seats: Option<seq<Id>>, r: Roster, p: Id) returns (k: nat)
    requires Sound(seats, r) && p !in r.conns
    ensures k <= |r.ring|
    ensures Joined(seats, r, p).ring == Spliced(r.ring, k, p)
    ensures Joined(seats, r, p).turn == if r.ring == [] then 0 else Shifted(r.turn, k)
    ensures Joined(seats, r, p).conns == r.conns[p := 1]
    ensures InSeatOrder(seats, Joined(seats, r, p).ring)
  {
    k := ReseatIsSplice(seats, r.ring, p);
    if r.ring != [] {
      IndexIs(r.ring, r.turn);
      SplicedIndex(r.ring, k, p, r.ring[r.turn]);
    }
  }

  lemma SplicedWellFormed(r: Roster, k: nat, p: Id, turn: nat)
    requires WellFormed(r) && p !in r.conns && k <= |r.ring| && turn <= |r.ring|
    ensures WellFormed(Roster(Spliced(r.ring, k, p), turn, r.conns[p := 1]))
  {
    SplicedNoDup(r.ring, k, p);
    SplicedMembers(r.ring, k, p);
  }

  lemma NewcomerKeepsSound(seats: Option<seq<Id>>, r: Roster, p: Id)
    requires Sound(seats, r) && p !in r.conns
    ensures Sound(seats, Joined(seats, r, p))
  {
    var k := NewcomerSpliced(seats, r, p);
    var j := Joined(seats, r, p);
    SplicedWellFormed(r, k, p, j.turn);
    assert j == Roster(Spliced(r.ring, k, p), j.turn, r.conns[p := 1]);
  }

  /** What a departure does to the ring and to the turn index. */
  lemma DepartureRemoves(r: Roster, p: Id)
    requires WellFormed(r) && p in r.conns && r.conns[p] == 1
    ensures var d := Departed(r, p);
      && d.ring == Remove(r.ring, p)
      && |d.ring| == |r.ring| - 1
      && (d.ring != [] ==>
            d.turn == if IndexOf(r.ring, p) < r.turn then r.turn - 1
                      else if r.turn == |d.ring| then 0 else r.turn)
  {}

  lemma DepartureKeepsSound(seats: Option<seq<Id>>, r: Roster, p: Id)
    requires Sound(seats, r) && p in r.conns && r.conns[p] == 1
    ensures Sound(seats, Departed(r, p))
  {
    RemovedNoDup(r.ring, p);
    RemoveKeepsSeatOrder(seats, r.ring, p);
  }

  /** Every step keeps the ring sound. */
  lemma StepKeepsSound(seats: Option<seq<Id>>, r: Roster, op: Op)
    requires Sound(seats, r)
    ensures Sound(seats, Step(seats, r, op))
  {
    match op {
      case Join(p) =>
        if p !in r.conns { NewcomerKeepsSound(seats, r, p); }
      case Leave(p) =>
        if p in r.conns && r.conns[p] == 1 { DepartureKeepsSound(seats, r, p); }
      case Commit =>
    }
  }

  /** In every reachable state the ring is duplicate-free, is exactly the participants with a
      live connection, is in seat order, and has its turn index in range. */
  lemma {:induction false} ReachableIsSound(seats: Option<seq<Id>>, r: Roster, ops: seq<Op>)
    requires Sound(seats, r)
    ensures Sound(seats, Run(seats, r, ops))
    decreases |ops|
  {
    if ops != [] {
      StepKeepsSound(seats, r, ops[0]);
      ReachableIsSound(seats, Step(seats, r, ops[0]), ops[1..]);
    }
  }

  // --- whose turn it is ---

  lemma ReseatPermutes(seats: Option<seq<Id>>, ring: seq<Id>)
    requires NoDup(ring)
    ensures NoDup(Reseat(seats, ring)) && |Reseat(seats, ring)| == |ring|
    ensures forall q :: q in Reseat(seats, ring) <==> q in ring
  {
    if seats.Some? {
      SortContents(BySeat(seats.value), ring);
      PermutedNoDup(ring, Reseat(seats, ring));
      PermutedMembers(ring, Reseat(seats, ring));
    }
  }

  /** Whatever seat list a join brings, and whatever order the ring was in. */
  lemma JoinKeepsWellFormed(seats: Option<seq<Id>>, r: Roster, p: Id)
    requires WellFormed(r)
    ensures WellFormed(Joined(seats, r, p))
  {
    if p !in r.conns { ReseatPermutes(seats, r.ring + [p]); }
  }

  lemma LeaveKeepsWellFormed(r: Roster, p: Id)
    requires WellFormed(r)
    ensures WellFormed(Departed(r, p))
  {
    if p in r.conns && r.conns[p] == 1 { RemovedNoDup(r.ring, p); }
  }

  lemma JoinFollowsHolder(seats: Option<seq<Id>>, r: Roster, p: Id)
    requires WellFormed(r) && p !in r.conns && r.ring != []
    ensures var j := Joined(seats, r, p); j.turn < |j.ring| && j.ring[j.turn] == r.ring[r.turn]
  {
    ReseatPermutes(seats, r.ring + [p]);
    assert r.ring[r.turn] in r.ring + [p];
  }

  /** A join never moves the turn, whatever seat list it brings; the first to arrive takes it. */
  lemma JoinKeepsHolder(seats: Option<seq<Id>>, r: Roster, p: Id)
    requires WellFormed(r)
    ensures Holder(Joined(seats, r, p)) == if r.ring == [] then Some(p) else Holder(r)
  {
    if p !in r.conns {
      if r.ring == [] {
        ReseatPermutes(seats, [p]);
        assert r.ring + [p] == [p];
        assert Reseat(seats, [p])[0] in Reseat(seats, [p]);
      } else {
        JoinFollowsHolder(seats, r, p);
      }
    }
  }

  lemma RemovedAt(ring: seq<Id>, p: Id, j: nat)
    requires p in ring && j < |ring| - 1
    ensures |Remove(ring, p)| == |ring| - 1
    ensures Remove(ring, p)[j] == if j < IndexOf(ring, p) then ring[j] else ring[j + 1]
  {}

  /** When somebody leaves for good, the turn index finds the old holder in the ring that is
      left, or the next member if it was the holder who left. */
  lemma LastConnectionLeaves(r: Roster, p: Id)
    requires WellFormed(r) && p in r.conns && r.conns[p] == 1 && |r.ring| > 1
    ensures var d := Departed(r, p);
      && d.turn < |d.ring|
      && d.ring[d.turn] == if r.ring[r.turn] != p then r.ring[r.turn] else r.ring[Wrapped(r.turn + 1, |r.ring|)]
  {
    DepartureRemoves(r, p);
    IndexIs(r.ring, r.turn);
    var d, i := Departed(r, p), IndexOf(r.ring, p);
    RemovedAt(r.ring, p, d.turn);
    if i == r.turn && r.turn + 1 < |r.ring| {
      assert Wrapped(r.turn + 1, |r.ring|) == r.turn + 1;
    }
  }

  /** A departure keeps the holder, unless the holder is who left for good: then the turn goes to
      the next in the ring. */
  lemma LeaveKeepsOrPassesTurn(r: Roster, p: Id)
    requires WellFormed(r) && r.ring != []
    ensures Holder(Departed(r, p)) ==
      if Holder(r) != Some(p) || r.conns[p] > 1 then Holder(r)
      else if |r.ring| == 1 then None
      else Some(r.ring[Wrapped(r.turn + 1, |r.ring|)])
  {
    assert Holder(r) == Some(r.ring[r.turn]);
    if p in r.conns && r.conns[p] == 1 {
      DepartureRemoves(r, p);
      if |r.ring| > 1 {
        LastConnectionLeaves(r, p);
        assert Holder(Departed(r, p)) == Some(Departed(r, p).ring[Departed(r, p).turn]);
      }
    }
  }

  function Successor(r: Roster): Id
    requires r.ring != []
  {
    r.ring[Wrapped(r.turn + 1, |r.ring|)]
  }

  /** No step moves the turn further than to the next in the ring. */
  lemma TurnStaysOrAdvances(seats: Option<seq<Id>>, r: Roster, op: Op)
    requires WellFormed(r) && r.ring != []
    ensures Holder(Step(seats, r, op)) in {Holder(r), Some(Successor(r)), None}
    ensures op.Commit? ==> Holder(Step(seats, r, op)) == Some(Successor(r))
  {
    match op {
      case Join(q) => JoinKeepsHolder(seats, r, q);
      case Leave(q) => LeaveKeepsOrPassesTurn(r, q);
      case Commit =>
    }
  }

  // --- bounded wait ---

  lemma NoWaitIsHolding(r: Roster, p: Id)
    requires WellFormed(r) && p in r.ring
    ensures Wait(r, p) < |r.ring|
    ensures Wait(r, p) == 0 <==> Holder(r) == Some(p)
  {
    IndexIs(r.ring, r.turn);
  }

  /** After a newcomer joins, everybody's position and the turn index have moved alike. */
  lemma PositionsAfterJoin(seats: Option<seq<Id>>, r: Roster, q: Id) returns (k: nat)
    requires Sound(seats, r) && q !in r.conns && r.ring != []
    ensures var j := Joined(seats, r, q);
      && |j.ring| == |r.ring| + 1 && j.turn == Shifted(r.turn, k)
      && forall p :: p in r.ring ==> p in j.ring && IndexOf(j.ring, p) == Shifted(IndexOf(r.ring, p), k)
  {
    k := NewcomerSpliced(seats, r, q);
    forall p | p in r.ring
      ensures p in Spliced(r.ring, k, q)
      ensures IndexOf(Spliced(r.ring, k, q), p) == Shifted(IndexOf(r.ring, p), k)
    {
      SplicedIndex(r.ring, k, q, p);
    }
  }

  /** `d` is `r` with the member at `k` gone and everybody behind it closed up. */
  ghost predicate ClosedUp(r: Roster, d: Roster, k: nat) {
    && r.turn < |r.ring| && d.turn < |d.ring| && k < |r.ring| && |d.ring| == |r.ring| - 1
    && d.turn == (if k < r.turn then r.turn - 1 else if r.turn == |d.ring| then 0 else r.turn)
    && forall p :: p in d.ring ==>
         p in r.ring && IndexOf(r.ring, p) != k && IndexOf(d.ring, p) == Closed(IndexOf(r.ring, p), k)
  }

  lemma PositionsAfterLeave(r: Roster, q: Id) returns (k: nat)
    requires WellFormed(r) && q in r.conns && r.conns[q] == 1 && |r.ring| > 1
    ensures ClosedUp(r, Departed(r, q), k)
  {
    k := IndexOf(r.ring, q);
    DepartureRemoves(r, q);
    RemovedNoDup(r.ring, q);
    forall p | p in Remove(r.ring, q)
      ensures p in r.ring && IndexOf(r.ring, p) != k
      ensures IndexOf(Remove(r.ring, q), p) == Closed(IndexOf(r.ring, p), k)
    {
      RemovedIndex(r.ring, q, p);
    }
  }

  lemma JoinWait(seats: Option<seq<Id>>, r: Roster, q: Id, p: Id)
    requires Sound(seats, r) && Sound(seats, Joined(seats, r, q)) && q !in r.conns
    requires p in r.ring && p in Joined(seats, r, q).ring
    ensures Wait(Joined(seats, r, q), p) <= Wait(r, p) + 1
  {
    var _ := PositionsAfterJoin(seats, r, q);
  }

  lemma LeaveWait(r: Roster, q: Id, p: Id)
    requires WellFormed(r) && WellFormed(Departed(r, q)) && q in r.conns && r.conns[q] == 1
    requires p in r.ring && p in Departed(r, q).ring && Wait(r, p) > 0
    ensures Wait(Departed(r, q), p) <= Wait(r, p)
  {
    DepartureRemoves(r, q);
    var k := PositionsAfterLeave(r, q);
    var d := Departed(r, q);
    assert IndexOf(d.ring, p) == Closed(IndexOf(r.ring, p), k);
  }

  /** One step changes the wait of someone who stays by at most one: an arrival may add one, a
      commit takes one off, and a departure never adds. */
  lemma StepWait(seats: Option<seq<Id>>, r: Roster, op: Op, p: Id)
    requires Sound(seats, r) && Sound(seats, Step(seats, r, op))
    requires p in r.ring && p in Step(seats, r, op).ring
    requires Wait(r, p) > 0
    ensures Wait(Step(seats, r, op), p) + (if op.Commit? then 1 else 0)
         <= Wait(r, p) + (if op.Join? && op.p !in r.conns then 1 else 0)
  {
    if op.Join? && op.p !in r.conns {
      JoinWait(seats, r, op.p, p);
    } else if op.Leave? && op.p in r.conns && r.conns[op.p] == 1 {
      LeaveWait(r, op.p, p);
    }
  }

  /** Bounded wait under churn: a participant who stays connected holds the turn by the time the
      commits reach their initial distance plus the number of newcomers. */
  lemma {:induction false} BoundedWait(seats: Option<seq<Id>>, r: Roster, ops: seq<Op>, p: Id)
    requires Sound(seats, r) && StaysConnected(seats, r, ops, p)
    requires Commits(ops) >= Wait(r, p) + Arrivals(seats, r, ops)
    ensures HoldsAtSomePoint(seats, r, ops, p)
    decreases |ops|
  {
    NoWaitIsHolding(r, p);
    if Wait(r, p) > 0 {
      var s := Step(seats, r, ops[0]);
      StepKeepsSound(seats, r, ops[0]);
      assert p in s.conns;
      StepWait(seats, r, ops[0], p);
      BoundedWait(seats, s, ops[1..], p);
    }
  }

  // --- nobody is overtaken ---

  lemma JoinKeepsAhead(seats: Option<seq<Id>>, r: Roster, q: Id, p: Id, h: Id)
    requires Sound(seats, r) && Sound(seats, Joined(seats, r, q)) && q !in r.conns
    requires p in r.ring && h in r.ring && 0 < Wait(r, p) < Wait(r, h)
    ensures var j := Joined(seats, r, q);
      p in j.ring && h in j.ring && Wait(j, p) < Wait(j, h)
  {
    var k := PositionsAfterJoin(seats, r, q);
    AheadAfterShift(IndexOf(r.ring, p), IndexOf(r.ring, h), r.turn, |r.ring|, k);
  }

  lemma ClosingKeepsAhead(r: Roster, d: Roster, k: nat, p: Id, h: Id)
    requires ClosedUp(r, d, k)
    requires p in r.ring && h in r.ring && 0 < Wait(r, p) < Wait(r, h)
    requires p in d.ring && h in d.ring
    ensures Wait(d, p) < Wait(d, h)
  {
    AheadAfterClose(IndexOf(r.ring, p), IndexOf(r.ring, h), r.turn, |r.ring|, k);
  }

  lemma LeaveKeepsAhead(r: Roster, q: Id, p: Id, h: Id)
    requires WellFormed(r) && WellFormed(Departed(r, q)) && q in r.conns && r.conns[q] == 1
    requires p in r.ring && h in r.ring && 0 < Wait(r, p) < Wait(r, h)
    requires p in Departed(r, q).ring && h in Departed(r, q).ring
    ensures Wait(Departed(r, q), p) < Wait(Departed(r, q), h)
  {
    assert IndexOf(r.ring, p) != IndexOf(r.ring, h);
    var k := PositionsAfterLeave(r, q);
    ClosingKeepsAhead(r, Departed(r, q), k, p, h);
  }

  /** While `p` is ahead of `h` and does not hold the turn, no step puts `h` in front. */
  lemma StepKeepsAhead(seats: Option<seq<Id>>, r: Roster, op: Op, p: Id, h: Id)
    requires Sound(seats, r) && Sound(seats, Step(seats, r, op))
    requires p in r.ring && p in Step(seats, r, op).ring
    requires h in r.ring && h in Step(seats, r, op).ring
    requires 0 < Wait(r, p) < Wait(r, h)
    ensures Wait(Step(seats, r, op), p) < Wait(Step(seats, r, op), h)
  {
    if op.Join? && op.p !in r.conns {
      JoinKeepsAhead(seats, r, op.p, p, h);
    } else if op.Leave? && op.p in r.conns && r.conns[op.p] == 1 {
      LeaveKeepsAhead(r, op.p, p, h);
    }
  }

  lemma AheadAfterShift(i: nat, j: nat, turn: nat, n: nat, k: nat)
    requires i < n && j < n && turn < n
    requires 0 < Ahead(i, turn, n) < Ahead(j, turn, n)
    ensures Shifted(turn, k) < n + 1
    ensures Ahead(Shifted(i, k), Shifted(turn, k), n + 1) < Ahead(Shifted(j, k), Shifted(turn, k), n + 1)
  {}

  lemma AheadAfterClose(i: nat, j: nat, turn: nat, n: nat, k: nat)
    requires i < n && j < n && turn < n && k < n && i != k && j != k
    requires 0 < Ahead(i, turn, n) < Ahead(j, turn, n)
    ensures var t := if k < turn then turn - 1 else if turn == n - 1 then 0 else turn;
      && t < n - 1
      && Ahead(Closed(i, k), t, n - 1) < Ahead(Closed(j, k), t, n - 1)
  {}

  lemma {:induction false} AheadHoldsFirst(
      seats: Option<seq<Id>>, r: Roster, ops: seq<Op>, p: Id, h: Id)
    requires Sound(seats, r)
    requires StaysConnected(seats, r, ops, p) && StaysConnected(seats, r, ops, h)
    requires Wait(r, p) < Wait(r, h)
    requires Holder(Run(seats, r, ops)) == Some(h)
    ensures HoldsAtSomePoint(seats, r, ops, p)
    decreases |ops|
  {
    NoWaitIsHolding(r, p);
    NoWaitIsHolding(r, h);
    if Wait(r, p) > 0 && ops != [] {
      var s := Step(seats, r, ops[0]);
      StepKeepsSound(seats, r, ops[0]);
      assert p in s.conns && h in s.conns;
      StepKeepsAhead(seats, r, ops[0], p, h);
      AheadHoldsFirst(seats, s, ops[1..], p, h);
    }
  }

  /** After `h` ends a turn, everyone else who stays connected holds the turn before `h`, who
      also stays connected, holds it again. */
  lemma NoOvertaking(seats: Option<seq<Id>>, r: Roster, ops: seq<Op>, p: Id, h: Id)
    requires Sound(seats, r) && Holder(r) == Some(h) && p != h
    requires StaysConnected(seats, Rotated(r), ops, p) && StaysConnected(seats, Rotated(r), ops, h)
    requires Holder(Run(seats, Rotated(r), ops)) == Some(h)
    ensures HoldsAtSomePoint(seats, Rotated(r), ops, p)
  {
    IndexIs(r.ring, r.turn);
    assert IndexOf(r.ring, p) != r.turn;
    AheadHoldsFirst(seats, Rotated(r), ops, p, h);
  }
}
