/** The 10x10 skirmish board, its distance field and the walk down it. */
module Grid {
  import opened Common

  datatype Pos = Pos(x: int, y: int)

  const WALL := '#'
  const COVER := '+'

  datatype Board = Board(rows: seq<string>) {
    /** The shape the board asserts of itself when it is built. */
    ghost predicate Valid() {
      |rows| == 10 && forall y :: 0 <= y < 10 ==> |rows[y]| == 10
    }

    predicate InBounds(p: Pos) {
      0 <= p.x < 10 && 0 <= p.y < 10
    }

    function Tile(p: Pos): char
      requires Valid() && InBounds(p)
    {
      rows[p.y][p.x]
    }

    predicate Passable(p: Pos)
      requires Valid()
    {
      InBounds(p) && Tile(p) != WALL
    }
  }

  function Abs(n: int): nat {
    if n < 0 then -n else n
  }

  function Chebyshev(a: Pos, b: Pos): nat {
    if Abs(a.x - b.x) >= Abs(a.y - b.y) then Abs(a.x - b.x) else Abs(a.y - b.y)
  }

  /** North, east, south, west: the order that breaks movement ties. */
  function Stepped(p: Pos, dir: int): Pos
    requires 0 <= dir < 4
  {
    if dir == 0 then Pos(p.x, p.y - 1)
    else if dir == 1 then Pos(p.x + 1, p.y)
    else if dir == 2 then Pos(p.x, p.y + 1)
    else Pos(p.x - 1, p.y)
  }

  predicate Adjacent(p: Pos, q: Pos) {
    Abs(p.x - q.x) + Abs(p.y - q.y) == 1
  }

  lemma AdjacentIsStep(p: Pos, q: Pos)
    ensures Adjacent(p, q) <==> exists dir :: 0 <= dir < 4 && Stepped(p, dir) == q
  {
    if Adjacent(p, q) {
      var dir := if q.y == p.y - 1 then 0 else if q.x == p.x + 1 then 1 else if q.y == p.y + 1 then 2 else 3;
      assert Stepped(p, dir) == q;
    }
  }

  /** The tiles a mover may stand on: passable, and not held by another unit. */
  ghost predicate Free(board: Board, blocked: set<Pos>, p: Pos)
    requires board.Valid()
  {
    board.Passable(p) && p !in blocked
  }

  // --- walking distance, by paths ---

  /** `path` leads over free tiles from `p` to a tile of `goals`. */
  ghost predicate IsPath(board: Board, blocked: set<Pos>, goals: set<Pos>, path: seq<Pos>, p: Pos)
    requires board.Valid()
  {
    && path != [] && path[0] == p && Free(board, blocked, p)
    && if |path| == 1 then p in goals
       else Adjacent(p, path[1]) && IsPath(board, blocked, goals, path[1..], path[1])
  }

  ghost predicate CanReach(board: Board, blocked: set<Pos>, goals: set<Pos>, p: Pos)
    requires board.Valid()
  {
    exists path :: IsPath(board, blocked, goals, path, p)
  }

  /** `d` is the least number of steps from `p` to a goal. */
  ghost predicate IsDistance(board: Board, blocked: set<Pos>, goals: set<Pos>, p: Pos, d: nat)
    requires board.Valid()
  {
    && (exists path :: IsPath(board, blocked, goals, path, p) && |path| == d + 1)
    && (forall path :: IsPath(board, blocked, goals, path, p) ==> |path| >= d + 1)
  }

  /** A field is exact when its keys are the tiles that can reach a goal and its values their
      distances. */
  ghost predicate Exact(board: Board, blocked: set<Pos>, goals: set<Pos>, field: map<Pos, nat>)
    requires board.Valid()
  {
    && (forall p :: p in field <==> CanReach(board, blocked, goals, p))
    && (forall p :: p in field ==> IsDistance(board, blocked, goals, p, field[p]))
  }

  // --- the local shape of a finished search ---

  ghost predicate Grounded(board: Board, blocked: set<Pos>, goals: set<Pos>, field: map<Pos, nat>)
    requires board.Valid()
  {
    && (forall p :: p in field ==> Free(board, blocked, p))
    && (forall p :: p in field && field[p] == 0 ==> p in goals)
    && (forall p :: p in field && field[p] > 0 ==>
          exists q :: q in field && Adjacent(p, q) && field[q] == field[p] - 1)
  }

  ghost predicate SeededAll(board: Board, blocked: set<Pos>, goals: set<Pos>, field: map<Pos, nat>)
    requires board.Valid()
  {
    forall g :: g in goals && Free(board, blocked, g) ==> g in field && field[g] == 0
  }

  /** Every free neighbour of `p` is reached, at most one step further out. */
  ghost predicate Expanded(board: Board, blocked: set<Pos>, field: map<Pos, nat>, p: Pos)
    requires board.Valid() && p in field
  {
    forall q :: Adjacent(p, q) && Free(board, blocked, q) ==> q in field && field[q] <= field[p] + 1
  }

  ghost predicate Closed(board: Board, blocked: set<Pos>, field: map<Pos, nat>)
    requires board.Valid()
  {
    forall p :: p in field ==> Expanded(board, blocked, field, p)
  }

  lemma {:induction false} FieldHasPath(
      board: Board, blocked: set<Pos>, goals: set<Pos>, field: map<Pos, nat>, p: Pos)
      returns (path: seq<Pos>)
    requires board.Valid() && Grounded(board, blocked, goals, field) && p in field
    ensures IsPath(board, blocked, goals, path, p) && |path| == field[p] + 1
    decreases field[p]
  {
    if field[p] == 0 {
      path := [p];
    } else {
      var q :| q in field && Adjacent(p, q) && field[q] == field[p] - 1;
      var rest := FieldHasPath(board, blocked, goals, field, q);
      path := [p] + rest;
      assert path[1..] == rest;
    }
  }

  lemma AdjacentSymmetric(p: Pos, q: Pos)
    ensures Adjacent(p, q) <==> Adjacent(q, p)
  {}

  /** No path beats the field. */
  lemma {:induction false} PathNotShorter(
      board: Board, blocked: set<Pos>, goals: set<Pos>, field: map<Pos, nat>, path: seq<Pos>, p: Pos)
    requires board.Valid() && SeededAll(board, blocked, goals, field) && Closed(board, blocked, field)
    requires IsPath(board, blocked, goals, path, p)
    ensures p in field && field[p] + 1 <= |path|
    decreases |path|
  {
    if |path| > 1 {
      PathNotShorter(board, blocked, goals, field, path[1..], path[1]);
      AdjacentSymmetric(p, path[1]);
      assert Expanded(board, blocked, field, path[1]);
    }
  }

  lemma LocalShapeIsExact(board: Board, blocked: set<Pos>, goals: set<Pos>, field: map<Pos, nat>)
    requires board.Valid() && Grounded(board, blocked, goals, field)
    requires SeededAll(board, blocked, goals, field) && Closed(board, blocked, field)
    ensures Exact(board, blocked, goals, field)
  {
    forall p | p in field ensures IsDistance(board, blocked, goals, p, field[p]) {
      var path := FieldHasPath(board, blocked, goals, field, p);
      forall other | IsPath(board, blocked, goals, other, p) ensures |other| >= field[p] + 1 {
        PathNotShorter(board, blocked, goals, field, other, p);
      }
    }
    forall p | CanReach(board, blocked, goals, p) ensures p in field {
      var path :| IsPath(board, blocked, goals, path, p);
      PathNotShorter(board, blocked, goals, field, path, p);
    }
  }
}
