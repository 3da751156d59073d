/** The turn ring of one campaign as a value, and what a join, a leave and a commit do to it. */
module TurnRing {
  import opened Common
  import opened StableSort

  /** `ring`: connected participants in turn order; `turn`: index of the holder; `conns`: live
      connections per participant. */
  datatype Roster = Roster(ring: seq<Id>, turn: nat, conns: map<Id, int>)

  const EMPTY := Roster([], 0, map[])

  ghost predicate WellFormed(r: Roster) {
    && NoDup(r.ring)
    && (forall p :: p in r.ring <==> p in r.conns)
    && (forall p :: p in r.conns ==> r.conns[p] >= 1)
    && (if r.ring == [] then r.turn == 0 else r.turn < |r.ring|)
  }

  function Holder(r: Roster): Option<Id> {
    if r.ring == [] then None else Some(r.ring[Wrapped(r.turn, |r.ring|)])
  }

  /** A participant's place in the seat list (the last entry wins), or past its end. */
  function Rank(seats: seq<Id>, p: Id): (i: nat)
    ensures i <= |seats|
    ensures i < |seats| <==> p in seats
    ensures i < |seats| ==> seats[i] == p && p !in seats[i + 1..]
  {
    RankBelow(seats, p, |seats|)
  }

  function RankBelow(seats: seq<Id>, p: Id, n: nat): (i: nat)
    requires n <= |seats| && p !in seats[n..]
    ensures i <= |seats|
    ensures i < |seats| <==> p in seats
    ensures i < |seats| ==> seats[i] == p && p !in seats[i + 1..]
  {
    if n == 0 then |seats|
    else if seats[n - 1] == p then n - 1
    else
      assert seats[n - 1..] == [seats[n - 1]] + seats[n..];
      RankBelow(seats, p, n - 1)
  }

  function BySeat(seats: seq<Id>): (Id, Id) -> bool {
    (p, q) => Rank(seats, p) <= Rank(seats, q)
  }

  function Reseat(seats: Option<seq<Id>>, ring: seq<Id>): seq<Id> {
    match seats
    case None => ring
    case Some(ss) => Sort(BySeat(ss), ring)
  }

  /** A ring is in seat order when re-seating leaves it as it is. */
  ghost predicate InSeatOrder(seats: Option<seq<Id>>, ring: seq<Id>) {
    Reseat(seats, ring) == ring
  }

  // --- the three steps ---

  function Joined(seats: Option<seq<Id>>, r: Roster, p: Id): Roster {
    if p in r.conns then r.(conns := r.conns[p := r.conns[p] + 1])
    else
      var ring := Reseat(seats, r.ring + [p]);
      var holder := Holder(r);
      Roster(ring,
             if holder.Some? && holder.value in ring then IndexOf(ring, holder.value) else 0,
             r.conns[p := 1])
  }

  function Departed(r: Roster, p: Id): Roster {
    if p !in r.conns || p !in r.ring then r
    else if r.conns[p] > 1 then r.(conns := r.conns[p := r.conns[p] - 1])
    else
      var idx, ring := IndexOf(r.ring, p), Remove(r.ring, p);
      var cur := if idx < r.turn then r.turn - 1 else r.turn;
      Roster(ring, if ring == [] then 0 else Wrapped(cur, |ring|), r.conns - {p})
  }

  function Rotated(r: Roster): Roster {
    if r.ring == [] then r else r.(turn := Wrapped(r.turn + 1, |r.ring|))
  }

  // --- runs ---

  datatype Op = Join(p: Id) | Leave(p: Id) | Commit

  function Step(seats: Option<seq<Id>>, r: Roster, op: Op): Roster {
    match op
    case Join(p) => Joined(seats, r, p)
    case Leave(p) => Departed(r, p)
    case Commit => Rotated(r)
  }

  function Run(seats: Option<seq<Id>>, r: Roster, ops: seq<Op>): Roster
    decreases |ops|
  {
    if ops == [] then r else Run(seats, Step(seats, r, ops[0]), ops[1..])
  }

  /** `p` has a live connection at the start and after every step. */
  ghost predicate StaysConnected(seats: Option<seq<Id>>, r: Roster, ops: seq<Op>, p: Id)
    decreases |ops|
  {
    p in r.conns && (ops != [] ==> StaysConnected(seats, Step(seats, r, ops[0]), ops[1..], p))
  }

  /** `p` holds the turn at the start or after some step. */
  ghost predicate HoldsAtSomePoint(seats: Option<seq<Id>>, r: Roster, ops: seq<Op>, p: Id)
    decreases |ops|
  {
    || Holder(r) == Some(p)
    || (ops != [] && HoldsAtSomePoint(seats, Step(seats, r, ops[0]), ops[1..], p))
  }

  function Commits(ops: seq<Op>): nat {
    if ops == [] then 0 else (if ops[0].Commit? then 1 else 0) + Commits(ops[1..])
  }

  /** Joins that bring in somebody who was not connected. */
  function Arrivals(seats: Option<seq<Id>>, r: Roster, ops: seq<Op>): nat
    decreases |ops|
  {
    if ops == [] then 0
    else
      (if ops[0].Join? && ops[0].p !in r.conns then 1 else 0)
      + Arrivals(seats, Step(seats, r, ops[0]), ops[1..])
  }

  /** How many rotations until `p` holds the turn, if nobody comes or goes. */
  function Wait(r: Roster, p: Id): nat
    requires p in r.ring && r.turn < |r.ring|
  {
    Ahead(IndexOf(r.ring, p), r.turn, |r.ring|)
  }

  /** Steps forward from index `turn` to index `i` around a ring of `n`. */
  function Ahead(i: nat, turn: nat, n: nat): nat
    requires turn < n
  {
    if i >= turn then i - turn else i + n - turn
  }

  // --- positions in a list without repeats ---

  function Spliced(s: seq<Id>, k: nat, p: Id): seq<Id>
    requires k <= |s|
  {
    s[..k] + [p] + s[k..]
  }

  /** Where position `i` of `s` lands once something is spliced in at `k`. */
  function Shifted(i: nat, k: nat): nat {
    if i < k then i else i + 1
  }

  lemma SplicedMembers(s: seq<Id>, k: nat, p: Id)
    requires k <= |s|
    ensures forall q :: q in Spliced(s, k, p) <==> q in s || q == p
  {
    assert s == s[..k] + s[k..];
  }

  lemma SplicedNoDup(s: seq<Id>, k: nat, p: Id)
    requires k <= |s| && NoDup(s) && p !in s
    ensures NoDup(Spliced(s, k, p))
  {
    var t := Spliced(s, k, p);
    forall i, j | 0 <= i < j < |t| ensures t[i] != t[j] {
      if i != k && j != k {
        NoDupApart(s, if i < k then i else i - 1, if j < k then j else j - 1);
      }
    }
    NoDupFromApart(t);
  }

  lemma SplicedIndex(s: seq<Id>, k: nat, p: Id, q: Id)
    requires k <= |s| && NoDup(s) && p !in s && q in s
    ensures q in Spliced(s, k, p)
    ensures IndexOf(Spliced(s, k, p), q) == Shifted(IndexOf(s, q), k)
  {
    var t := Spliced(s, k, p);
    SplicedNoDup(s, k, p);
    SplicedMembers(s, k, p);
    assert t[Shifted(IndexOf(s, q), k)] == q;
    IndexIs(t, Shifted(IndexOf(s, q), k));
  }

  /** Where position `i` lands once position `k` is taken out. */
  function Closed(i: nat, k: nat): nat
    requires i != k
  {
    if i < k then i else i - 1
  }

  lemma RemovedNoDup(s: seq<Id>, p: Id)
    requires NoDup(s) && p in s
    ensures NoDup(Remove(s, p)) && |Remove(s, p)| == |s| - 1
    ensures forall q :: q in Remove(s, p) <==> q in s && q != p
  {
    var k, t := IndexOf(s, p), Remove(s, p);
    RemoveIsDrop(s, p);
    DropMembers(s, {p});
    forall i, j | 0 <= i < j < |t| ensures t[i] != t[j] {
      NoDupApart(s, if i < k then i else i + 1, if j < k then j else j + 1);
    }
    NoDupFromApart(t);
  }

  lemma RemovedIndex(s: seq<Id>, p: Id, q: Id)
    requires NoDup(s) && p in s && q in s && q != p
    ensures q in Remove(s, p)
    ensures IndexOf(s, q) != IndexOf(s, p)
    ensures IndexOf(Remove(s, p), q) == Closed(IndexOf(s, q), IndexOf(s, p))
  {
    RemovedNoDup(s, p);
    assert s[IndexOf(s, q)] == q;
    var t, j := Remove(s, p), Closed(IndexOf(s, q), IndexOf(s, p));
    assert t[j] == q;
    IndexIs(t, j);
  }

  // --- re-seating is an insertion ---

  lemma BySeatIsTotal(ss: seq<Id>)
    ensures TotalPreorder(BySeat(ss))
  {}

  lemma {:induction false} InsertIsSplice(ss: seq<Id>, s: seq<Id>, p: Id) returns (k: nat)
    ensures k <= |s| && Insert(BySeat(ss), s, p) == Spliced(s, k, p)
  {
    if s == [] || BySeat(ss)(s[|s| - 1], p) {
      k := |s|;
    } else {
      k := InsertIsSplice(ss, s[..|s| - 1], p);
      assert Spliced(s[..|s| - 1], k, p) + [s[|s| - 1]] == Spliced(s, k, p);
    }
  }

  lemma InSeatOrderIsSorted(ss: seq<Id>, ring: seq<Id>)
    ensures InSeatOrder(Some(ss), ring) <==> Sorted(BySeat(ss), ring)
  {
    BySeatIsTotal(ss);
    SortIsStable(BySeat(ss), ring);
    if Sorted(BySeat(ss), ring) { SortOfSorted(BySeat(ss), ring); }
  }

  /** A newcomer is spliced into an ordered ring; nobody else moves relative to anybody else. */
  lemma ReseatIsSplice(seats: Option<seq<Id>>, ring: seq<Id>, p: Id) returns (k: nat)
    requires InSeatOrder(seats, ring)
    ensures k <= |ring| && Reseat(seats, ring + [p]) == Spliced(ring, k, p)
    ensures InSeatOrder(seats, Reseat(seats, ring + [p]))
  {
    match seats {
      case None =>
        k := |ring|;
        assert Spliced(ring, k, p) == ring + [p];
      case Some(ss) =>
        InSeatOrderIsSorted(ss, ring);
        BySeatIsTotal(ss);
        SortAppended(BySeat(ss), ring, p);
        InsertSorted(BySeat(ss), ring, p);
        k := InsertIsSplice(ss, ring, p);
        InSeatOrderIsSorted(ss, Insert(BySeat(ss), ring, p));
    }
  }

  /** Taking somebody out leaves the rest in seat order. */
  lemma RemoveKeepsSeatOrder(seats: Option<seq<Id>>, ring: seq<Id>, p: Id)
    requires InSeatOrder(seats, ring) && p in ring
    ensures InSeatOrder(seats, Remove(ring, p))
  {
    if seats.Some? {
      var le := BySeat(seats.value);
      InSeatOrderIsSorted(seats.value, ring);
      var k, t := IndexOf(ring, p), Remove(ring, p);
      forall i, j | 0 <= i < j < |t| ensures le(t[i], t[j]) {
        assert le(ring[if i < k then i else i + 1], ring[if j < k then j else j + 1]);
      }
      InSeatOrderIsSorted(seats.value, t);
    }
  }
}
