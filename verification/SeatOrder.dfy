/** What a seat list adds to the turn ring: it depends only on who is connected, and nobody jumps it. */
module SeatOrder {
  import opened Common
  import opened StableSort
  import opened TurnRing
  import opened TurnOrder

  // --- the ring is a function of who is connected ---

  function Members(s: seq<Id>): set<Id> {
    set p | p in s
  }

  /** The seated ring `r` against `a`, the ring the same history builds with no seat list (pure
      join order): seat list first, then the unseated in join order. */
  ghost predicate Canonical(ss: seq<Id>, r: Roster, a: Roster) {
    && r.conns == a.conns
    && r.ring == Keep(ss, r.conns.Keys) + Drop(a.ring, Members(ss))
  }

  lemma SeatRank(ss: seq<Id>, i: nat)
    requires NoDup(ss) && i < |ss|
    ensures Rank(ss, ss[i]) == i
  {
    var j := Rank(ss, ss[i]);
    if j != i { NoDupApart(ss, if j < i then j else i, if j < i then i else j); }
  }

  /** The unseated sort after every seat, so a seated newcomer is inserted among the seats. */
  lemma {:induction false} InsertAmongSeats(ss: seq<Id>, f: seq<Id>, u: seq<Id>, p: Id)
    requires p in ss && forall q :: q in u ==> q !in ss
    ensures Insert(BySeat(ss), f + u, p) == Insert(BySeat(ss), f, p) + u
  {
    if u == [] {
      assert f + u == f;
    } else {
      var last := u[|u| - 1];
      assert last in u;
      assert (f + u)[..|f + u| - 1] == f + u[..|u| - 1];
      InsertAmongSeats(ss, f, u[..|u| - 1], p);
      assert u == u[..|u| - 1] + [last];
    }
  }

  lemma UnseatedLast(ss: seq<Id>, s: seq<Id>, p: Id)
    requires p !in ss
    ensures Insert(BySeat(ss), s, p) == s + [p]
  {}

  lemma {:induction false} KeepUnchanged(s: seq<Id>, k: set<Id>, p: Id)
    requires p !in s
    ensures Keep(s, k + {p}) == Keep(s, k)
  {
    if s != [] { KeepUnchanged(s[..|s| - 1], k, p); }
  }

  /** Everybody seated before seat `n` ranks before it. */
  lemma SeatedEarlier(ss: seq<Id>, n: nat, z: Id)
    requires NoDup(ss) && n <= |ss| && z in ss[..n]
    ensures Rank(ss, z) < n
  {
    var j := IndexOf(ss[..n], z);
    assert ss[j] == z;
    SeatRank(ss, j);
  }

  /** The newcomer's own seat is next: it goes after every earlier seat that is taken. */
  lemma InsertAtOwnSeat(ss: seq<Id>, n: nat, k: set<Id>)
    requires NoDup(ss) && n < |ss|
    ensures Insert(BySeat(ss), Keep(ss[..n], k), ss[n]) == Keep(ss[..n], k) + [ss[n]]
  {
    var s := Keep(ss[..n], k);
    SeatRank(ss, n);
    if s != [] {
      KeepMembers(ss[..n], k);
      assert s[|s| - 1] in s;
      SeatedEarlier(ss, n, s[|s| - 1]);
    }
  }

  /** A later seat that is taken stays behind the newcomer. */
  lemma InsertBeforeSeat(ss: seq<Id>, n: nat, s: seq<Id>, p: Id)
    requires NoDup(ss) && n < |ss| && p in ss[..n]
    ensures Insert(BySeat(ss), s + [ss[n]], p) == Insert(BySeat(ss), s, p) + [ss[n]]
  {
    SeatedEarlier(ss, n, p);
    SeatRank(ss, n);
    assert (s + [ss[n]])[..|s|] == s;
  }

  lemma KeepNext(ss: seq<Id>, n: nat, k: set<Id>)
    requires n < |ss|
    ensures Keep(ss[..n + 1], k) == Keep(ss[..n], k) + if ss[n] in k then [ss[n]] else []
  {
    assert ss[..n + 1][..n] == ss[..n];
  }

  /** Inserting a seated newcomer among the first `n` seats that are taken. */
  lemma {:induction false} InsertIntoSeats(ss: seq<Id>, n: nat, k: set<Id>, p: Id)
    requires NoDup(ss) && n <= |ss| && p in ss[..n] && p !in k
    ensures Insert(BySeat(ss), Keep(ss[..n], k), p) == Keep(ss[..n], k + {p})
    decreases n
  {
    var front, q := ss[..n - 1], ss[n - 1];
    assert ss[..n] == front + [q];
    KeepNext(ss, n - 1, k);
    KeepNext(ss, n - 1, k + {p});
    assert Keep(front, k) + [] == Keep(front, k);
    assert Keep(front, k + {p}) + [] == Keep(front, k + {p});
    if p == q {
      OwnSeatIsNew(ss, n - 1);
      KeepUnchanged(front, k, p);
      InsertAtOwnSeat(ss, n - 1, k);
    } else {
      assert p in front;
      InsertIntoSeats(ss, n - 1, k, p);
      if q in k { InsertBeforeSeat(ss, n - 1, Keep(front, k), p); }
    }
  }

  lemma OwnSeatIsNew(ss: seq<Id>, n: nat)
    requires NoDup(ss) && n < |ss|
    ensures ss[n] !in ss[..n]
  {
    if ss[n] in ss[..n] {
      var j := IndexOf(ss[..n], ss[n]);
      NoDupApart(ss, j, n);
    }
  }

  lemma OrderExtended(ss: seq<Id>, order: seq<Id>, p: Id)
    ensures Drop(order + [p], Members(ss)) == Drop(order, Members(ss)) + if p in ss then [] else [p]
  {
    DropConcat(order, [p], Members(ss));
    if p in ss {
      DropAll([p], Members(ss));
    } else {
      DropNone([p], Members(ss));
    }
  }

  /** Seating `p` in a canonical ring is a canonical ring. */
  lemma SeatingIsCanonical(ss: seq<Id>, k: set<Id>, order: seq<Id>, p: Id)
    requires NoDup(ss) && p !in k
    ensures Insert(BySeat(ss), Keep(ss, k) + Drop(order, Members(ss)), p)
         == Keep(ss, k + {p}) + Drop(order + [p], Members(ss))
  {
    var f, u := Keep(ss, k), Drop(order, Members(ss));
    OrderExtended(ss, order, p);
    if p in ss {
      DropMembers(order, Members(ss));
      InsertAmongSeats(ss, f, u, p);
      assert ss[..|ss|] == ss;
      InsertIntoSeats(ss, |ss|, k, p);
    } else {
      UnseatedLast(ss, f + u, p);
      KeepUnchanged(ss, k, p);
    }
  }

  lemma ReseatIsInsert(ss: seq<Id>, ring: seq<Id>, p: Id)
    requires InSeatOrder(Some(ss), ring)
    ensures Reseat(Some(ss), ring + [p]) == Insert(BySeat(ss), ring, p)
  {
    InSeatOrderIsSorted(ss, ring);
    BySeatIsTotal(ss);
    SortAppended(BySeat(ss), ring, p);
  }

  lemma JoiningReseats(seats: Option<seq<Id>>, r: Roster, p: Id)
    requires p !in r.conns
    ensures Joined(seats, r, p).ring == Reseat(seats, r.ring + [p])
    ensures Joined(seats, r, p).conns == r.conns[p := 1]
  {}

  lemma CanonicalJoin(ss: seq<Id>, r: Roster, a: Roster, p: Id)
    requires NoDup(ss) && InSeatOrder(Some(ss), r.ring) && Canonical(ss, r, a)
    ensures Canonical(ss, Joined(Some(ss), r, p), Joined(None, a, p))
  {
    if p !in r.conns {
      ReseatIsInsert(ss, r.ring, p);
      SeatingIsCanonical(ss, r.conns.Keys, a.ring, p);
      JoiningReseats(Some(ss), r, p);
      JoiningReseats(None, a, p);
      assert r.conns[p := 1].Keys == r.conns.Keys + {p};
    } else {
      assert r.conns[p := r.conns[p] + 1].Keys == r.conns.Keys;
    }
  }

  lemma DroppingIsCanonical(ss: seq<Id>, k: set<Id>, order: seq<Id>, p: Id)
    ensures Drop(Keep(ss, k) + Drop(order, Members(ss)), {p})
         == Keep(ss, k - {p}) + Drop(Drop(order, {p}), Members(ss))
  {
    DropConcat(Keep(ss, k), Drop(order, Members(ss)), {p});
    DropOfKeep(ss, k, {p});
    DropCommutes(order, Members(ss), {p});
  }

  lemma LeavingDrops(r: Roster, p: Id)
    requires WellFormed(r) && p in r.conns && r.conns[p] == 1
    ensures Departed(r, p).ring == Drop(r.ring, {p})
    ensures Departed(r, p).conns == r.conns - {p}
  {
    RemoveIsDrop(r.ring, p);
  }

  lemma CanonicalLeave(ss: seq<Id>, r: Roster, a: Roster, p: Id)
    requires WellFormed(r) && WellFormed(a) && Canonical(ss, r, a)
    ensures Canonical(ss, Departed(r, p), Departed(a, p))
  {
    if p in r.conns && r.conns[p] == 1 {
      LeavingDrops(r, p);
      LeavingDrops(a, p);
      DroppingIsCanonical(ss, r.conns.Keys, a.ring, p);
      assert (r.conns - {p}).Keys == r.conns.Keys - {p};
    } else if p in r.conns {
      assert r.conns[p := r.conns[p] - 1].Keys == r.conns.Keys;
    }
  }

  lemma {:induction false} RunsStayCanonical(ss: seq<Id>, r: Roster, a: Roster, ops: seq<Op>)
    requires NoDup(ss) && Sound(Some(ss), r) && Sound(None, a) && Canonical(ss, r, a)
    ensures Canonical(ss, Run(Some(ss), r, ops), Run(None, a, ops))
    decreases |ops|
  {
    if ops != [] {
      StepKeepsSound(Some(ss), r, ops[0]);
      StepKeepsSound(None, a, ops[0]);
      match ops[0] {
        case Join(p) => CanonicalJoin(ss, r, a, p);
        case Leave(p) => CanonicalLeave(ss, r, a, p);
        case Commit =>
      }
      RunsStayCanonical(ss, Step(Some(ss), r, ops[0]), Step(None, a, ops[0]), ops[1..]);
    }
  }

  /** After any history under distinct seats, the ring is the seat list restricted to the
      connected participants, followed by the unseated ones in the order they joined. */
  lemma RingIsSeatsThenJoinOrder(ss: seq<Id>, ops: seq<Op>)
    requires NoDup(ss)
    ensures var r, a := Run(Some(ss), EMPTY, ops), Run(None, EMPTY, ops);
      r.conns == a.conns && r.ring == Keep(ss, r.conns.Keys) + Drop(a.ring, Members(ss))
  {
    KeepMembers(ss, {});
    if Keep(ss, {}) != [] { assert Keep(ss, {})[0] in Keep(ss, {}); }
    assert EMPTY.conns.Keys == {};
    RunsStayCanonical(ss, EMPTY, EMPTY, ops);
  }

  /** Connect order cannot be observed: two histories that leave the same seated participants
      connected leave the same ring. */
  lemma SameConnectedSameRing(ss: seq<Id>, ops: seq<Op>, ops': seq<Op>)
    requires NoDup(ss)
    requires var k := Run(Some(ss), EMPTY, ops).conns.Keys;
      k == Run(Some(ss), EMPTY, ops').conns.Keys && k <= Members(ss)
    ensures Run(Some(ss), EMPTY, ops).ring == Run(Some(ss), EMPTY, ops').ring
  {
    RingIsSeatsThenJoinOrder(ss, ops);
    RingIsSeatsThenJoinOrder(ss, ops');
    ReachableIsSound(None, EMPTY, ops);
    ReachableIsSound(None, EMPTY, ops');
    DropAll(Run(None, EMPTY, ops).ring, Members(ss));
    DropAll(Run(None, EMPTY, ops').ring, Members(ss));
  }

  // --- a seated member cannot jump the queue ---

  /** Going round the seats from `t`, `a` is reached before `b`. */
  predicate Between(t: nat, a: nat, b: nat) {
    t <= a < b || a < b < t || b < t <= a
  }

  lemma RingRanks(ss: seq<Id>, ring: seq<Id>, i: nat, j: nat)
    requires InSeatOrder(Some(ss), ring) && i < j < |ring|
    ensures Rank(ss, ring[i]) <= Rank(ss, ring[j])
  {
    InSeatOrderIsSorted(ss, ring);
    assert BySeat(ss)(ring[i], ring[j]);
  }

  lemma SameSeat(ss: seq<Id>, p: Id, q: Id)
    requires p in ss
    ensures Rank(ss, p) == Rank(ss, q) ==> p == q
  {}

  /** The turn moving on to the next in the ring does not skip past `p`, seated and connected. */
  lemma SuccessorStaysBefore(ss: seq<Id>, ring: seq<Id>, turn: nat, p: Id, b: nat)
    requires InSeatOrder(Some(ss), ring) && turn < |ring|
    requires p in ring && p in ss && ring[turn] != p && Rank(ss, p) != b
    requires Between(Rank(ss, ring[turn]), Rank(ss, p), b) || Rank(ss, ring[turn]) == b
    ensures Between(Rank(ss, ring[Wrapped(turn + 1, |ring|)]), Rank(ss, p), b)
            || (Rank(ss, ring[turn]) == b && Rank(ss, ring[Wrapped(turn + 1, |ring|)]) == b)
  {
    SameSeat(ss, p, ring[turn]);
    var i, n := IndexOf(ring, p), Wrapped(turn + 1, |ring|);
    if turn < i { RingRanks(ss, ring, turn, i); } else { RingRanks(ss, ring, i, turn); }
    if n < i { RingRanks(ss, ring, n, i); }
    if n == turn + 1 { RingRanks(ss, ring, turn, n); }
  }

  /** The turn is somewhere from which `p` is reached before `h`'s seat. */
  ghost predicate StillBefore(ss: seq<Id>, r: Roster, p: Id, h: Id) {
    Holder(r).Some? && Between(Rank(ss, Holder(r).value), Rank(ss, p), Rank(ss, h))
  }

  lemma SuccessorBetween(ss: seq<Id>, ring: seq<Id>, turn: nat, p: Id, h: Id)
    requires InSeatOrder(Some(ss), ring) && turn < |ring|
    requires p in ring && p in ss && h in ss && p != h && ring[turn] != p
    requires Between(Rank(ss, ring[turn]), Rank(ss, p), Rank(ss, h))
    ensures Between(Rank(ss, ring[Wrapped(turn + 1, |ring|)]), Rank(ss, p), Rank(ss, h))
  {
    SameSeat(ss, p, h);
    SuccessorStaysBefore(ss, ring, turn, p, Rank(ss, h));
  }

  /** The turn of a ring that is not empty is with its holder or, after a step, with the next. */
  lemma HolderAfterStep(ss: seq<Id>, r: Roster, op: Op)
    requires Sound(Some(ss), r) && r.ring != [] && Step(Some(ss), r, op).conns != map[]
    ensures Holder(Step(Some(ss), r, op)).Some?
    ensures Holder(Step(Some(ss), r, op)) == Holder(r) || Holder(Step(Some(ss), r, op)) == Some(Successor(r))
  {
    var s := Step(Some(ss), r, op);
    StepKeepsSound(Some(ss), r, op);
    var q :| q in s.conns;
    assert q in s.ring;
    TurnStaysOrAdvances(Some(ss), r, op);
  }

  lemma OneOfTwo(a: nat, b: nat, x: nat, p: nat, h: nat)
    requires Between(a, p, h) && Between(b, p, h) && (x == a || x == b)
    ensures Between(x, p, h)
  {}

  /** `x` is the holder or the next in the ring: neither is past `p`. */
  lemma NextStaysBefore(ss: seq<Id>, r: Roster, x: Id, p: Id, h: Id)
    requires r.turn < |r.ring| && InSeatOrder(Some(ss), r.ring)
    requires p in r.ring && p in ss && h in ss && p != h && r.ring[r.turn] != p
    requires Between(Rank(ss, r.ring[r.turn]), Rank(ss, p), Rank(ss, h))
    requires x == r.ring[r.turn] || x == Successor(r)
    ensures Between(Rank(ss, x), Rank(ss, p), Rank(ss, h))
  {
    var next := r.ring[Wrapped(r.turn + 1, |r.ring|)];
    assert x == r.ring[r.turn] || x == next;
    SuccessorBetween(ss, r.ring, r.turn, p, h);
    OneOfTwo(Rank(ss, r.ring[r.turn]), Rank(ss, next), Rank(ss, x), Rank(ss, p), Rank(ss, h));
  }

  /** Until `p` holds the turn no step carries it past `p`, whether or not `h` is connected. */
  lemma StepStaysBefore(ss: seq<Id>, r: Roster, op: Op, p: Id, h: Id)
    requires Sound(Some(ss), r) && p in r.ring && p in ss && h in ss && p != h
    requires StillBefore(ss, r, p, h) && Holder(r) != Some(p)
    requires p in Step(Some(ss), r, op).conns && p in r.conns
    ensures StillBefore(ss, Step(Some(ss), r, op), p, h)
  {
    HolderAfterStep(ss, r, op);
    NextStaysBefore(ss, r, Holder(Step(Some(ss), r, op)).value, p, h);
  }

  lemma {:induction false} SeatedHoldsFirst(ss: seq<Id>, r: Roster, ops: seq<Op>, p: Id, h: Id)
    requires Sound(Some(ss), r) && p in ss && h in ss && p != h
    requires StaysConnected(Some(ss), r, ops, p)
    requires StillBefore(ss, r, p, h)
    requires Holder(Run(Some(ss), r, ops)) == Some(h)
    ensures HoldsAtSomePoint(Some(ss), r, ops, p)
    decreases |ops|
  {
    if Holder(r) != Some(p) && ops != [] {
      StepKeepsSound(Some(ss), r, ops[0]);
      StepStaysBefore(ss, r, ops[0], p, h);
      SeatedHoldsFirst(ss, Step(Some(ss), r, ops[0]), ops[1..], p, h);
    }
  }

  lemma CommitPassesSeat(ss: seq<Id>, r: Roster, p: Id, h: Id)
    requires Sound(Some(ss), r) && Holder(r) == Some(h) && p in ss && h in ss && p != h
    requires p in r.ring
    ensures StillBefore(ss, Rotated(r), p, h)
  {
    SameSeat(ss, p, h);
    SuccessorStaysBefore(ss, r.ring, r.turn, p, Rank(ss, h));
    SameSeat(ss, h, Successor(r));
    NoWaitIsHolding(r, p);
    IndexIs(r.ring, r.turn);
    IndexIs(r.ring, Wrapped(r.turn + 1, |r.ring|));
  }

  /** After a seated `h` ends a turn, every other seated member who stays connected holds the turn
      before `h` does, however often `h` drops out and comes back. */
  lemma SeatedHoldBeforeSeated(ss: seq<Id>, r: Roster, ops: seq<Op>, p: Id, h: Id)
    requires Sound(Some(ss), r) && Holder(r) == Some(h) && p in ss && h in ss && p != h
    requires StaysConnected(Some(ss), Rotated(r), ops, p)
    requires Holder(Run(Some(ss), Rotated(r), ops)) == Some(h)
    ensures HoldsAtSomePoint(Some(ss), Rotated(r), ops, p)
  {
    StepKeepsSound(Some(ss), r, Commit);
    CommitPassesSeat(ss, r, p, h);
    SeatedHoldsFirst(ss, Rotated(r), ops, p, h);
  }
}
