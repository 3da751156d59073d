/** The breadth-first search over the board and the greedy walk down its field. */
module Pathing {
  import opened Common
  import opened Grid

  function Tiles(): set<Pos> {
    set x, y | 0 <= x < 10 && 0 <= y < 10 :: Pos(x, y)
  }

  /** The queue holds reached tiles in order of distance, and nothing reached lies more than one
      step beyond distance `d`. */
  ghost predicate Frontier(field: map<Pos, nat>, queue: seq<Pos>, d: nat) {
    && (forall i :: 0 <= i < |queue| ==> queue[i] in field && field[queue[i]] >= d)
    && (forall i, j :: 0 <= i < j < |queue| ==> field[queue[i]] <= field[queue[j]])
    && (forall p :: p in field ==> field[p] <= d + 1)
  }

  /** Directions before `n` out of `pos` have been looked at. */
  ghost predicate ExpandedUpTo(board: Board, blocked: set<Pos>, field: map<Pos, nat>, pos: Pos, n: int)
    requires board.Valid() && pos in field && 0 <= n <= 4
  {
    forall dir :: 0 <= dir < n && Free(board, blocked, Stepped(pos, dir)) ==>
      Stepped(pos, dir) in field && field[Stepped(pos, dir)] <= field[pos] + 1
  }

  lemma AllDirectionsExpanded(board: Board, blocked: set<Pos>, field: map<Pos, nat>, pos: Pos)
    requires board.Valid() && pos in field && ExpandedUpTo(board, blocked, field, pos, 4)
    ensures Expanded(board, blocked, field, pos)
  {
    forall q | Adjacent(pos, q) && Free(board, blocked, q)
      ensures q in field && field[q] <= field[pos] + 1
    {
      AdjacentIsStep(pos, q);
      var dir :| 0 <= dir < 4 && Stepped(pos, dir) == q;
    }
  }

  /** The search while `pos` is being expanded, its first `dir` directions done. */
  ghost predicate Expanding(board: Board, blocked: set<Pos>, goals: set<Pos>, field: map<Pos, nat>,
                            queue: seq<Pos>, pos: Pos, dir: int)
    requires board.Valid() && 0 <= dir <= 4
  {
    && pos in field && Frontier(field, queue, field[pos])
    && Grounded(board, blocked, goals, field) && SeededAll(board, blocked, goals, field)
    && (forall p :: p in field ==> p == pos || p in queue || Expanded(board, blocked, field, p))
    && ExpandedUpTo(board, blocked, field, pos, dir)
  }

  lemma GroundedGrows(board: Board, blocked: set<Pos>, goals: set<Pos>, field: map<Pos, nat>, pos: Pos, q: Pos)
    requires board.Valid() && Grounded(board, blocked, goals, field)
    requires pos in field && q !in field && Free(board, blocked, q) && Adjacent(q, pos)
    ensures Grounded(board, blocked, goals, field[q := field[pos] + 1])
  {
    var f := field[q := field[pos] + 1];
    forall p | p in f && f[p] > 0
      ensures exists o :: o in f && Adjacent(p, o) && f[o] == f[p] - 1
    {
      if p == q {
        assert pos in f && f[pos] == f[q] - 1;
      } else {
        var o :| o in field && Adjacent(p, o) && field[o] == field[p] - 1;
        assert o in f && f[o] == f[p] - 1;
      }
    }
  }

  lemma FrontierGrows(field: map<Pos, nat>, queue: seq<Pos>, pos: Pos, q: Pos)
    requires pos in field && q !in field && Frontier(field, queue, field[pos])
    ensures Frontier(field[q := field[pos] + 1], queue + [q], field[pos])
  {}

  lemma ExpansionKept(board: Board, blocked: set<Pos>, field: map<Pos, nat>, p: Pos, q: Pos, d: nat)
    requires board.Valid() && p in field && q !in field && Expanded(board, blocked, field, p)
    ensures Expanded(board, blocked, field[q := d], p)
  {}

  lemma StepIsAdjacent(p: Pos, dir: int)
    requires 0 <= dir < 4
    ensures Adjacent(Stepped(p, dir), p) && Stepped(p, dir) != p
  {}

  lemma DirectionsKept(board: Board, blocked: set<Pos>, field: map<Pos, nat>, pos: Pos, dir: int)
    requires board.Valid() && pos in field && 0 <= dir < 4
    requires ExpandedUpTo(board, blocked, field, pos, dir) && Stepped(pos, dir) !in field
    ensures ExpandedUpTo(board, blocked, field[Stepped(pos, dir) := field[pos] + 1], pos, dir + 1)
  {}

  /** Reaching one more tile next to `pos`. */
  lemma ReachedOneMore(board: Board, blocked: set<Pos>, goals: set<Pos>, field: map<Pos, nat>,
                       queue: seq<Pos>, pos: Pos, dir: int)
    requires board.Valid() && 0 <= dir < 4 && Expanding(board, blocked, goals, field, queue, pos, dir)
    requires Free(board, blocked, Stepped(pos, dir)) && Stepped(pos, dir) !in field
    ensures var q := Stepped(pos, dir);
      Expanding(board, blocked, goals, field[q := field[pos] + 1], queue + [q], pos, dir + 1)
  {
    var q := Stepped(pos, dir);
    var f := field[q := field[pos] + 1];
    StepIsAdjacent(pos, dir);
    GroundedGrows(board, blocked, goals, field, pos, q);
    FrontierGrows(field, queue, pos, q);
    DirectionsKept(board, blocked, field, pos, dir);
    assert SeededAll(board, blocked, goals, f);
    forall p | p in f ensures p == pos || p in queue + [q] || Expanded(board, blocked, f, p) {
      if p in field && Expanded(board, blocked, field, p) {
        ExpansionKept(board, blocked, field, p, q, field[pos] + 1);
      }
    }
  }

  /** A direction that adds nothing: off the board, a wall, taken, or already reached. */
  lemma NothingToReach(board: Board, blocked: set<Pos>, goals: set<Pos>, field: map<Pos, nat>,
                       queue: seq<Pos>, pos: Pos, dir: int)
    requires board.Valid() && 0 <= dir < 4 && Expanding(board, blocked, goals, field, queue, pos, dir)
    requires Stepped(pos, dir) in field || !Free(board, blocked, Stepped(pos, dir))
    ensures Expanding(board, blocked, goals, field, queue, pos, dir + 1)
  {}

  lemma ReachedIsOnBoard(board: Board, blocked: set<Pos>, goals: set<Pos>, field: map<Pos, nat>)
    requires board.Valid() && Grounded(board, blocked, goals, field)
    ensures field.Keys <= Tiles()
  {}

  /** The search between two expansions. */
  ghost predicate Searching(board: Board, blocked: set<Pos>, goals: set<Pos>, field: map<Pos, nat>,
                            queue: seq<Pos>)
    requires board.Valid()
  {
    && Grounded(board, blocked, goals, field) && SeededAll(board, blocked, goals, field)
    && (queue != [] ==> queue[0] in field && Frontier(field, queue, field[queue[0]]))
    && (forall p :: p in field ==> p in queue || Expanded(board, blocked, field, p))
  }

  lemma StartExpanding(board: Board, blocked: set<Pos>, goals: set<Pos>, field: map<Pos, nat>, queue: seq<Pos>)
    requires board.Valid() && queue != [] && Searching(board, blocked, goals, field, queue)
    ensures Expanding(board, blocked, goals, field, queue[1..], queue[0], 0)
  {
    assert queue == [queue[0]] + queue[1..];
  }

  lemma FinishExpanding(board: Board, blocked: set<Pos>, goals: set<Pos>, field: map<Pos, nat>,
                        queue: seq<Pos>, pos: Pos)
    requires board.Valid() && Expanding(board, blocked, goals, field, queue, pos, 4)
    ensures Searching(board, blocked, goals, field, queue)
  {
    AllDirectionsExpanded(board, blocked, field, pos);
  }

  /** The usable goals, each at distance 0, in sorted order; what is off the board is not
      passable and so not usable. */
  method SeedGoals(board: Board, blocked: set<Pos>, goals: set<Pos>, mover: Pos)
      returns (field: map<Pos, nat>, queue: seq<Pos>)
    requires board.Valid() && mover !in blocked
    ensures Searching(board, blocked, goals, field, queue)
  {
    field, queue := map[], [];
    for x := 0 to 10
      invariant forall p :: p in field <==> p in queue
      invariant forall p :: p in field ==> field[p] == 0 && p in goals && Free(board, blocked, p)
      invariant forall g :: g in goals && Free(board, blocked, g) && g.x < x ==> g in field
    {
      for y := 0 to 10
        invariant forall p :: p in field <==> p in queue
        invariant forall p :: p in field ==> field[p] == 0 && p in goals && Free(board, blocked, p)
        invariant forall g :: g in goals && Free(board, blocked, g) && g.x < x ==> g in field
        invariant forall g :: g in goals && Free(board, blocked, g) && g.x == x && g.y < y ==> g in field
      {
        var g := Pos(x, y);
        if g in goals && board.Passable(g) && (g !in blocked || g == mover) {
          field := field[g := 0];
          queue := queue + [g];
        }
      }
    }
  }

  /** One turn of the search: the first tile in the queue reaches its free neighbours. */
  method ExpandFirst(board: Board, blocked: set<Pos>, ghost goals: set<Pos>, field: map<Pos, nat>, queue: seq<Pos>)
      returns (field': map<Pos, nat>, queue': seq<Pos>)
    requires board.Valid() && queue != [] && Searching(board, blocked, goals, field, queue)
    ensures Searching(board, blocked, goals, field', queue')
    ensures field.Keys <= field'.Keys && (field.Keys == field'.Keys ==> |queue'| < |queue|)
  {
    StartExpanding(board, blocked, goals, field, queue);
    var pos := queue[0];
    field', queue' := field, queue[1..];
    for dir := 0 to 4
      invariant Expanding(board, blocked, goals, field', queue', pos, dir)
      invariant field.Keys <= field'.Keys && (field.Keys == field'.Keys ==> |queue'| < |queue|)
    {
      var nxt := Stepped(pos, dir);
      if nxt in field' || !board.Passable(nxt) || nxt in blocked {
        NothingToReach(board, blocked, goals, field', queue', pos, dir);
        continue;
      }
      ReachedOneMore(board, blocked, goals, field', queue', pos, dir);
      field' := field'[nxt := field'[pos] + 1];
      queue' := queue' + [nxt];
    }
    FinishExpanding(board, blocked, goals, field', queue', pos);
  }

  method Search(board: Board, blocked: set<Pos>, ghost goals: set<Pos>, field: map<Pos, nat>, queue: seq<Pos>)
      returns (field': map<Pos, nat>)
    requires board.Valid() && Searching(board, blocked, goals, field, queue)
    ensures Searching(board, blocked, goals, field', [])
  {
    var queue' := queue;
    field' := field;
    while queue' != []
      invariant Searching(board, blocked, goals, field', queue')
      decreases Tiles() - field'.Keys, |queue'|
    {
      field', queue' := ExpandFirst(board, blocked, goals, field', queue');
      ReachedIsOnBoard(board, blocked, goals, field');
    }
  }

  /** The distance field of `goals` for a mover standing on `mover`: exact for every board, every
      set of occupied tiles and every goal set. */
  method DistanceField(board: Board, blocked: set<Pos>, goals: set<Pos>, mover: Pos)
      returns (field: map<Pos, nat>)
    requires board.Valid() && mover !in blocked
    ensures Exact(board, blocked, goals, field)
    ensures Grounded(board, blocked, goals, field) && Closed(board, blocked, field)
  {
    var queue: seq<Pos>;
    field, queue := SeedGoals(board, blocked, goals, mover);
    field := Search(board, blocked, goals, field, queue);
    LocalShapeIsExact(board, blocked, goals, field);
  }
}
