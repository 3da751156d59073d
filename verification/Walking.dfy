/** Walking down a distance field. */
module Walking {
  import opened Common
  import opened Grid
  import opened Pathing

  /** Among the first `n` directions, the first that leads one step closer. */
  function FirstDown(field: map<Pos, nat>, p: Pos, n: int): Option<Pos>
    requires p in field && 0 <= n <= 4
    decreases n
  {
    if n == 0 then None
    else
      var earlier := FirstDown(field, p, n - 1);
      var q := Stepped(p, n - 1);
      if earlier.Some? then earlier
      else if q in field && field[q] + 1 == field[p] then Some(q)
      else None
  }

  /** Where at most `n` steps down the field lead, each taking the first direction that helps. */
  function Walk(field: map<Pos, nat>, p: Pos, n: nat): Pos
    decreases n
  {
    if n == 0 || p !in field then p
    else
      match FirstDown(field, p, 4)
      case None => p
      case Some(q) => Walk(field, q, n - 1)
  }

  lemma {:induction false} FirstDownIsStep(field: map<Pos, nat>, p: Pos, n: int)
    requires p in field && 0 <= n <= 4
    ensures var f := FirstDown(field, p, n);
      && (f.Some? ==> f.value in field && field[f.value] + 1 == field[p] && Adjacent(p, f.value))
      && (f == None ==> forall dir :: 0 <= dir < n && Stepped(p, dir) in field ==>
            field[Stepped(p, dir)] + 1 != field[p])
  {
    if n > 0 {
      FirstDownIsStep(field, p, n - 1);
      StepIsAdjacent(p, n - 1);
    }
  }

  predicate StepsCloser(field: map<Pos, nat>, p: Pos, q: Pos)
    requires p in field
  {
    q in field && field[q] + 1 == field[p]
  }

  /** Of the neighbours a step closer, north comes first, then east, south and west. */
  lemma NorthEastSouthWest(field: map<Pos, nat>, p: Pos)
    requires p in field
    ensures FirstDown(field, p, 4) ==
      if StepsCloser(field, p, Pos(p.x, p.y - 1)) then Some(Pos(p.x, p.y - 1))
      else if StepsCloser(field, p, Pos(p.x + 1, p.y)) then Some(Pos(p.x + 1, p.y))
      else if StepsCloser(field, p, Pos(p.x, p.y + 1)) then Some(Pos(p.x, p.y + 1))
      else if StepsCloser(field, p, Pos(p.x - 1, p.y)) then Some(Pos(p.x - 1, p.y))
      else None
  {
    assert Stepped(p, 0) == Pos(p.x, p.y - 1) && Stepped(p, 1) == Pos(p.x + 1, p.y);
    assert Stepped(p, 2) == Pos(p.x, p.y + 1) && Stepped(p, 3) == Pos(p.x - 1, p.y);
    assert FirstDown(field, p, 1) == if StepsCloser(field, p, Stepped(p, 0)) then Some(Stepped(p, 0)) else None;
    assert FirstDown(field, p, 2).Some? <==> FirstDown(field, p, 1).Some? || StepsCloser(field, p, Stepped(p, 1));
  }

  /** Away from the goals there is always a way down. */
  lemma DownhillExists(board: Board, blocked: set<Pos>, goals: set<Pos>, field: map<Pos, nat>, p: Pos)
    requires board.Valid() && Grounded(board, blocked, goals, field) && p in field
    ensures FirstDown(field, p, 4).Some? <==> field[p] > 0
    ensures field[p] > 0 ==> FirstDown(field, p, 4).value in field && field[FirstDown(field, p, 4).value] == field[p] - 1
  {
    FirstDownIsStep(field, p, 4);
    if field[p] > 0 {
      var q :| q in field && Adjacent(p, q) && field[q] == field[p] - 1;
      AdjacentIsStep(p, q);
      var dir :| 0 <= dir < 4 && Stepped(p, dir) == q;
    }
  }

  /** From every reached tile off the goals the field leads one step closer. */
  ghost predicate LeadsDown(field: map<Pos, nat>) {
    forall p :: p in field ==>
      if field[p] == 0 then FirstDown(field, p, 4) == None
      else FirstDown(field, p, 4).Some? && FirstDown(field, p, 4).value in field
           && field[FirstDown(field, p, 4).value] == field[p] - 1
  }

  lemma FieldLeadsDown(board: Board, blocked: set<Pos>, goals: set<Pos>, field: map<Pos, nat>)
    requires board.Valid() && Grounded(board, blocked, goals, field)
    ensures LeadsDown(field)
  {
    forall p | p in field
      ensures if field[p] == 0 then FirstDown(field, p, 4) == None
        else FirstDown(field, p, 4).Some? && FirstDown(field, p, 4).value in field
             && field[FirstDown(field, p, 4).value] == field[p] - 1
    {
      DownhillExists(board, blocked, goals, field, p);
    }
  }

  /** A walk of `n` steps from distance `d` ends at distance `max(0, d - n)`. */
  lemma {:induction false} WalkDescends(field: map<Pos, nat>, p: Pos, n: nat)
    requires LeadsDown(field) && p in field
    ensures var q := Walk(field, p, n);
      q in field && field[q] == if field[p] >= n then field[p] - n else 0
    decreases n
  {
    if n > 0 && field[p] > 0 {
      WalkDescends(field, FirstDown(field, p, 4).value, n - 1);
    }
  }

  lemma DistanceUnique(board: Board, blocked: set<Pos>, goals: set<Pos>, p: Pos, d: nat, e: nat)
    requires board.Valid() && IsDistance(board, blocked, goals, p, d) && IsDistance(board, blocked, goals, p, e)
    ensures d == e
  {}

  /** Around `p` the field changes by at most one and holds no taken tile. */
  ghost predicate Smooth(blocked: set<Pos>, field: map<Pos, nat>, p: Pos) {
    forall dir :: 0 <= dir < 4 && Stepped(p, dir) in field ==>
      p in field && field[Stepped(p, dir)] + 1 >= field[p] && Stepped(p, dir) !in blocked
  }

  lemma FieldIsSmooth(board: Board, blocked: set<Pos>, goals: set<Pos>, field: map<Pos, nat>, p: Pos)
    requires board.Valid() && Grounded(board, blocked, goals, field) && Closed(board, blocked, field)
    requires Free(board, blocked, p)
    ensures Smooth(blocked, field, p)
  {
    forall dir | 0 <= dir < 4 && Stepped(p, dir) in field
      ensures p in field && field[Stepped(p, dir)] + 1 >= field[p] && Stepped(p, dir) !in blocked
    {
      StepIsAdjacent(p, dir);
      assert Expanded(board, blocked, field, Stepped(p, dir));
    }
  }

  /** One look around: the best neighbour, ties going to the earlier direction. */
  method BestNeighbour(blocked: set<Pos>, field: map<Pos, nat>, pos: Pos)
      returns (best: Option<Pos>, best_d: nat)
    requires Smooth(blocked, field, pos)
    ensures pos !in field ==> best == None
    ensures pos in field ==> best == FirstDown(field, pos, 4)
    ensures best.Some? ==> best.value in field && best_d == field[best.value]
  {
    best := None;
    best_d := if pos in field then field[pos] else 1000000;
    for dir := 0 to 4
      invariant pos !in field ==> best == None
      invariant pos in field ==> best == FirstDown(field, pos, dir)
      invariant best == None && pos in field ==> best_d == field[pos]
      invariant best.Some? ==> best.value in field && best_d == field[best.value] && best_d + 1 == field[pos]
    {
      var nxt := Stepped(pos, dir);
      if nxt !in field || nxt in blocked {
        continue;
      }
      var d := field[nxt];
      if d < best_d {
        best, best_d := Some(nxt), d;
      }
    }
  }

  method Descend(board: Board, blocked: set<Pos>, goals: set<Pos>, field: map<Pos, nat>, start: Pos, move: nat)
      returns (pos: Pos)
    requires board.Valid() && Free(board, blocked, start)
    requires Grounded(board, blocked, goals, field) && Closed(board, blocked, field)
    ensures Free(board, blocked, pos) && pos == Walk(field, start, move)
  {
    pos := start;
    for i := 0 to move
      invariant Free(board, blocked, pos)
      invariant Walk(field, start, move) == Walk(field, pos, move - i)
    {
      FieldIsSmooth(board, blocked, goals, field, pos);
      var best, best_d := BestNeighbour(blocked, field, pos);
      if best == None {
        break;
      }
      assert Walk(field, pos, move - i) == Walk(field, best.value, move - i - 1);
      pos := best.value;
      if best_d == 0 {
        DownhillExists(board, blocked, goals, field, pos);
        break;
      }
    }
  }

  lemma WalkLandsAtDistance(
      board: Board, blocked: set<Pos>, goals: set<Pos>, field: map<Pos, nat>, start: Pos, move: nat)
    requires board.Valid() && Exact(board, blocked, goals, field) && Grounded(board, blocked, goals, field)
    ensures !CanReach(board, blocked, goals, start) ==> Walk(field, start, move) == start
    ensures forall d: nat :: IsDistance(board, blocked, goals, start, d) ==>
      IsDistance(board, blocked, goals, Walk(field, start, move), if d >= move then d - move else 0)
  {
    forall d: nat | IsDistance(board, blocked, goals, start, d)
      ensures IsDistance(board, blocked, goals, Walk(field, start, move), if d >= move then d - move else 0)
    {
      assert CanReach(board, blocked, goals, start);
      DistanceUnique(board, blocked, goals, start, d, field[start]);
      FieldLeadsDown(board, blocked, goals, field);
      WalkDescends(field, start, move);
    }
  }

  /** Walk up to `move` tiles down the field towards the goal set. A mover that can reach no goal
      stays; one at distance `d` ends, on a free tile, at distance `max(0, d - move)`; ties go by
      direction. */
  method StepToward(board: Board, blocked: set<Pos>, goals: set<Pos>, start: Pos, move: nat)
      returns (pos: Pos, ghost field: map<Pos, nat>)
    requires board.Valid() && Free(board, blocked, start)
    ensures Free(board, blocked, pos)
    ensures !CanReach(board, blocked, goals, start) ==> pos == start
    ensures forall d: nat :: IsDistance(board, blocked, goals, start, d) ==>
      IsDistance(board, blocked, goals, pos, if d >= move then d - move else 0)
    ensures Exact(board, blocked, goals, field) && pos == Walk(field, start, move)
  {
    var f := DistanceField(board, blocked, goals, start);
    field := f;
    WalkLandsAtDistance(board, blocked, goals, f, start, move);
    if start !in f && !exists dir :: 0 <= dir < 4 && board.InBounds(Stepped(start, dir)) {
      pos := start;
      return;
    }
    pos := Descend(board, blocked, goals, f, start, move);
  }
}
