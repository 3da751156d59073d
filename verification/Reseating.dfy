/** Turn order when seats are bound and released during play, so that each join may bring another seat list. */
module Reseating {
  import opened Common
  import opened StableSort
  import opened TurnRing
  import opened TurnOrder

  /** A step, and the seat list its join fetched. */
  datatype Visit = Visit(op: Op, seats: Option<seq<Id>>)

  function After(r: Roster, v: Visit): Roster {
    Step(v.seats, r, v.op)
  }

  function AfterAll(r: Roster, visits: seq<Visit>): Roster
    decreases |visits|
  {
    if visits == [] then r else AfterAll(After(r, visits[0]), visits[1..])
  }

  lemma VisitKeepsWellFormed(r: Roster, v: Visit)
    requires WellFormed(r)
    ensures WellFormed(After(r, v))
  {
    match v.op {
      case Join(p) => JoinKeepsWellFormed(v.seats, r, p);
      case Leave(p) => LeaveKeepsWellFormed(r, p);
      case Commit =>
    }
  }

  predicate Arrives(r: Roster, v: Visit) {
    v.op.Join? && v.op.p !in r.conns
  }

  lemma ReseatIsInOrder(seats: Option<seq<Id>>, ring: seq<Id>)
    ensures InSeatOrder(seats, Reseat(seats, ring))
  {
    if seats.Some? {
      SortIsStable(BySeat(seats.value), ring);
      SortOfSorted(BySeat(seats.value), Reseat(seats, ring));
    }
  }

  /** The seat list of the latest newcomer, if there was one. */
  function LatestSeats(r: Roster, visits: seq<Visit>, before: Option<seq<Id>>): Option<seq<Id>>
    decreases |visits|
  {
    if visits == [] then before
    else LatestSeats(After(r, visits[0]), visits[1..], if Arrives(r, visits[0]) then visits[0].seats else before)
  }

  /** Whatever seat lists the joins bring, the ring is exactly the connected without repeats, has its
      turn index in range, and is in the order of the list its latest newcomer brought. */
  lemma {:induction false} ReachableUnderAnySeats(r: Roster, visits: seq<Visit>, seats: Option<seq<Id>>)
    requires Sound(seats, r)
    ensures Sound(LatestSeats(r, visits, seats), AfterAll(r, visits))
    decreases |visits|
  {
    if visits != [] {
      var v := visits[0];
      VisitKeepsWellFormed(r, v);
      if Arrives(r, v) {
        ReseatIsInOrder(v.seats, r.ring + [v.op.p]);
        ReachableUnderAnySeats(After(r, v), visits[1..], v.seats);
      } else {
        StepKeepsSound(seats, r, v.op);
        assert After(r, v) == Step(seats, r, v.op);
        ReachableUnderAnySeats(After(r, v), visits[1..], seats);
      }
    }
  }

  // --- bounded wait ---

  ghost predicate StaysIn(r: Roster, visits: seq<Visit>, p: Id)
    decreases |visits|
  {
    p in r.conns && (visits != [] ==> StaysIn(After(r, visits[0]), visits[1..], p))
  }

  ghost predicate HoldsSometime(r: Roster, visits: seq<Visit>, p: Id)
    decreases |visits|
  {
    || Holder(r) == Some(p)
    || (visits != [] && HoldsSometime(After(r, visits[0]), visits[1..], p))
  }

  function CommitsOf(visits: seq<Visit>): nat {
    if visits == [] then 0 else (if visits[0].op.Commit? then 1 else 0) + CommitsOf(visits[1..])
  }

  /** How much an arrival may add to a wait: one where the ring is in the order of the list it brings,
      and as many as were in the ring where it is not. */
  ghost function Delay(r: Roster, v: Visit): nat {
    if !Arrives(r, v) then 0 else if InSeatOrder(v.seats, r.ring) then 1 else |r.ring|
  }

  ghost function Delays(r: Roster, visits: seq<Visit>): nat
    decreases |visits|
  {
    if visits == [] then 0 else Delay(r, visits[0]) + Delays(After(r, visits[0]), visits[1..])
  }

  lemma ArrivalWait(r: Roster, v: Visit, p: Id)
    requires WellFormed(r) && Arrives(r, v) && p in r.ring && p in After(r, v).ring
    ensures WellFormed(After(r, v)) && Wait(After(r, v), p) <= Wait(r, p) + Delay(r, v)
  {
    VisitKeepsWellFormed(r, v);
    if InSeatOrder(v.seats, r.ring) {
      StepKeepsSound(v.seats, r, v.op);
      JoinWait(v.seats, r, v.op.p, p);
    } else {
      NoDupExtended(r.ring, v.op.p);
      ReseatPermutes(v.seats, r.ring + [v.op.p]);
      NoWaitIsHolding(After(r, v), p);
    }
  }

  lemma VisitWait(r: Roster, v: Visit, p: Id)
    requires WellFormed(r) && p in r.ring && p in After(r, v).ring && Wait(r, p) > 0
    ensures WellFormed(After(r, v))
    ensures Wait(After(r, v), p) + (if v.op.Commit? then 1 else 0) <= Wait(r, p) + Delay(r, v)
  {
    VisitKeepsWellFormed(r, v);
    if Arrives(r, v) {
      ArrivalWait(r, v, p);
    } else if v.op.Leave? && v.op.p in r.conns && r.conns[v.op.p] == 1 {
      LeaveWait(r, v.op.p, p);
    }
  }

  /** Bounded wait under any seat lists: whoever stays connected holds the turn by the time the commits
      reach its distance and the delays of the arrivals. */
  lemma {:induction false} BoundedWaitUnderAnySeats(r: Roster, visits: seq<Visit>, p: Id)
    requires WellFormed(r) && StaysIn(r, visits, p)
    requires CommitsOf(visits) >= Wait(r, p) + Delays(r, visits)
    ensures HoldsSometime(r, visits, p)
    decreases |visits|
  {
    NoWaitIsHolding(r, p);
    if Wait(r, p) > 0 {
      var s := After(r, visits[0]);
      VisitKeepsWellFormed(r, visits[0]);
      assert p in s.conns;
      VisitWait(r, visits[0], p);
      BoundedWaitUnderAnySeats(s, visits[1..], p);
    }
  }
}
