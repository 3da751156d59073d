/** What the rules of a fight come to for the units in it, die by die and field by field. */
module CombatRules {
  import opened Common
  import opened Grid
  import opened Walking
  import opened Skirmish
  import opened Tactics
  import opened Rounds
  import opened Turns

  /** `p` lies within `n` columns and `n` rows of `q`. */
  predicate Near(p: Pos, q: Pos, n: int) {
    p.x - q.x <= n && q.x - p.x <= n && p.y - q.y <= n && q.y - p.y <= n
  }

  lemma NearIsChebyshev(p: Pos, q: Pos, n: int)
    ensures Chebyshev(p, q) <= n <==> Near(p, q, n)
    ensures Near(p, q, n) <==> Near(q, p, n)
  {}

  /** Another unit of `a`'s side, on the board, stands next to `d`. */
  ghost predicate AllyBeside(us: seq<Fighter>, a: nat, d: nat)
    requires a < |us| && d < |us|
  {
    exists j :: 0 <= j < |us| && j != a && us[j].OnBoard() && us[j].team == us[a].team && Near(us[j].pos, us[d].pos, 1)
  }

  lemma FlankIsAllyBeside(us: seq<Fighter>, a: nat, d: nat)
    requires a < |us| && d < |us|
    ensures Flanked(us, a, d) <==> AllyBeside(us, a, d)
  {
    forall j | 0 <= j < |us| ensures Chebyshev(us[j].pos, us[d].pos) <= 1 <==> Near(us[j].pos, us[d].pos, 1) {
      NearIsChebyshev(us[j].pos, us[d].pos, 1);
    }
    if Flanked(us, a, d) {
      var j :| 0 <= j < |us| && us[j].OnBoard() && j != a && us[j].team == us[a].team
               && Chebyshev(us[j].pos, us[d].pos) <= 1;
      assert Near(us[j].pos, us[d].pos, 1);
    }
    if AllyBeside(us, a, d) {
      var j :| 0 <= j < |us| && j != a && us[j].OnBoard() && us[j].team == us[a].team && Near(us[j].pos, us[d].pos, 1);
      assert Chebyshev(us[j].pos, us[d].pos) <= 1;
    }
  }

  // --- an attack ---

  /** The attack landed: it also rolled for damage. */
  predicate Hit(dice: seq<int>) {
    |dice| == 2
  }

  /** Hand to hand, cover plays no part, and an unrallied attacker with no flank hits exactly when
      the first die and the melee score reach 10 and the armour. */
  lemma StrikesByMelee(board: Board, f: Field, a: nat, d: nat, f': Field, dice: seq<int>)
    requires board.Valid() && a < |f.us| && d < |f.us| && board.InBounds(f.us[d].pos)
    requires AttackStep(board, f, a, d, f', dice) && Near(f.us[a].pos, f.us[d].pos, 1)
    requires f.us[a].rally == 0 && (f.us[a].spec.cls != "Skirmisher" || !AllyBeside(f.us, a, d))
    ensures Hit(dice) <==> dice[0] + f.us[a].spec.melee >= 10 + f.us[d].spec.armor
  {
    NearIsChebyshev(f.us[a].pos, f.us[d].pos, 1);
    FlankIsAllyBeside(f.us, a, d);
  }

  /** Further off it is the ranged score, and a target in cover is harder to hit by four, except
      for a crossbow. */
  lemma ShootsByRanged(board: Board, f: Field, a: nat, d: nat, f': Field, dice: seq<int>)
    requires board.Valid() && a < |f.us| && d < |f.us| && board.InBounds(f.us[d].pos)
    requires AttackStep(board, f, a, d, f', dice) && !Near(f.us[a].pos, f.us[d].pos, 1)
    requires f.us[a].rally == 0 && (f.us[a].spec.cls != "Skirmisher" || !AllyBeside(f.us, a, d))
    ensures var t := f.us[d].pos;
      Hit(dice) <==>
      dice[0] + f.us[a].spec.ranged
        >= 10 + f.us[d].spec.armor + if board.rows[t.y][t.x] == '+' && f.us[a].spec.cls != "Crossbow" then 4 else 0
  {
    NearIsChebyshev(f.us[a].pos, f.us[d].pos, 1);
    FlankIsAllyBeside(f.us, a, d);
  }

  /** The least first die that hits would be `n`, if dice had every side. */
  ghost predicate HitsFrom(board: Board, f: Field, a: nat, d: nat, n: int)
    requires board.Valid() && a < |f.us| && d < |f.us| && board.InBounds(f.us[d].pos)
  {
    forall f', dice :: AttackStep(board, f, a, d, f', dice) ==> (Hit(dice) <==> dice[0] >= n)
  }

  /** What an unrallied attacker without a flank needs. */
  function PlainNeed(board: Board, us: seq<Fighter>, a: nat, d: nat): int
    requires board.Valid() && a < |us| && d < |us| && board.InBounds(us[d].pos)
  {
    var t := us[d].pos;
    10 + us[d].spec.armor +
    if Near(us[a].pos, t, 1) then -us[a].spec.melee
    else (if board.rows[t.y][t.x] == '+' && us[a].spec.cls != "Crossbow" then 4 else 0) - us[a].spec.ranged
  }

  /** Each point of rally lowers the least die that hits by one, and a skirmisher needs three less
      exactly when another of its side stands beside the target. */
  lemma NeedIs(board: Board, f: Field, a: nat, d: nat)
    requires board.Valid() && a < |f.us| && d < |f.us| && board.InBounds(f.us[d].pos)
    ensures HitsFrom(board, f, a, d,
      PlainNeed(board, f.us, a, d) - f.us[a].rally
        - if f.us[a].spec.cls == "Skirmisher" && AllyBeside(f.us, a, d) then 3 else 0)
  {
    NearIsChebyshev(f.us[a].pos, f.us[d].pos, 1);
    FlankIsAllyBeside(f.us, a, d);
  }

  /** Nobody but the two has changed, and neither has moved. */
  predicate OnlyTheseTwo(us: seq<Fighter>, a: nat, d: nat, us': seq<Fighter>)
    requires a < |us| && d < |us|
  {
    && |us'| == |us|
    && (forall j :: 0 <= j < |us| && j != a && j != d ==> us'[j] == us[j])
    && (a != d ==> us'[a] == us[a].(rally := us'[a].rally, kills := us'[a].kills))
    && (a != d ==> us'[d] == us[d].(hp := us'[d].hp, alive := us'[d].alive))
  }

  /** An attack leaves its mark: the rally is spent, hit or miss; a miss does nothing else; a hit
      takes the damage die and the bonus, at least one; and a target with no more than that dies,
      listed last, its killer named and credited. */
  lemma AttackLeaves(board: Board, f: Field, a: nat, d: nat, f': Field, dice: seq<int>)
    requires board.Valid() && a < |f.us| && d < |f.us| && a != d && board.InBounds(f.us[d].pos)
    requires AttackStep(board, f, a, d, f', dice)
    ensures 1 <= dice[0] <= 20 && (Hit(dice) ==> 1 <= dice[1] <= f.us[a].spec.damageDie) && (!Hit(dice) ==> |dice| == 1)
    ensures OnlyTheseTwo(f.us, a, d, f'.us) && f'.us[a].rally == 0
    ensures !Hit(dice) ==>
      f'.us[d] == f.us[d] && f'.us[a].kills == f.us[a].kills && f'.casualties == f.casualties && f'.blows == f.blows
    ensures Hit(dice) ==>
      var blow := if dice[1] + f.us[a].spec.damageBonus >= 1 then dice[1] + f.us[a].spec.damageBonus else 1;
      if f.us[d].hp > blow then
        && f'.us[d].hp == f.us[d].hp - blow && f'.us[d].alive == f.us[d].alive && f'.us[a].kills == f.us[a].kills
        && f'.casualties == f.casualties && f'.blows == f.blows
      else
        && f'.us[d].hp == 0 && !f'.us[d].alive && f'.us[a].kills == f.us[a].kills + 1
        && f'.casualties == f.casualties + [f.us[d].uid] && f'.blows == f.blows[f.us[d].uid := f.us[a].uid]
  {}

  // --- the other things a unit does on its turn ---

  /** An ally of `i` on the board, beside it. */
  predicate Beside(us: seq<Fighter>, i: nat, j: nat)
    requires i < |us| && j < |us|
  {
    j != i && us[j].OnBoard() && us[j].team == us[i].team && Near(us[j].pos, us[i].pos, 1)
  }

  predicate BadlyHurt(us: seq<Fighter>, i: nat, j: nat)
    requires i < |us| && j < |us|
  {
    Beside(us, i, j) && 2 * us[j].hp < us[j].spec.hp
  }

  lemma BesideIsAdjacent(us: seq<Fighter>, i: nat, j: nat)
    requires i < |us| && j < |us|
    ensures Beside(us, i, j) <==> IsAdjacentAlly(us, i, j)
  {
    NearIsChebyshev(us[j].pos, us[i].pos, 1);
  }

  /** Whom a sawbones patches: nobody beside it is worse hurt, or as badly with a smaller uid. */
  lemma WorstHurtIsWorst(us: seq<Fighter>, i: nat)
    requires i < |us|
    ensures WorstHurtAlly(us, i) == None <==> forall j :: 0 <= j < |us| ==> !BadlyHurt(us, i, j)
    ensures WorstHurtAlly(us, i).Some? ==> var t := WorstHurtAlly(us, i).value;
      && BadlyHurt(us, i, t)
      && forall j :: 0 <= j < |us| && BadlyHurt(us, i, j) ==>
           us[t].hp < us[j].hp || (us[t].hp == us[j].hp && !StringLess(us[j].uid, us[t].uid))
  {
    var keys := seq(|us|, j requires 0 <= j < |us| =>
      if IsAdjacentAlly(us, i, j) && us[j].hp * 2 < us[j].spec.hp then Some(Key(us[j].hp, us[j].uid)) else None);
    LeastIsLeast(keys);
    assert WorstHurtAlly(us, i) == Least(keys);
    forall j | 0 <= j < |us| ensures BadlyHurt(us, i, j) <==> keys[j].Some? {
      BesideIsAdjacent(us, i, j);
    }
    if Least(keys).Some? { assert keys[Least(keys).value].Some?; }
  }

  /** Whom a sergeant rallies: the first by uid of those beside it. */
  lemma RalliedIsFirst(us: seq<Fighter>, i: nat)
    requires i < |us|
    ensures AllyToRally(us, i) == None <==> forall j :: 0 <= j < |us| ==> !Beside(us, i, j)
    ensures AllyToRally(us, i).Some? ==> var t := AllyToRally(us, i).value;
      Beside(us, i, t) && forall j :: 0 <= j < |us| && Beside(us, i, j) ==> !StringLess(us[j].uid, us[t].uid)
  {
    var keys := seq(|us|, j requires 0 <= j < |us| =>
      if IsAdjacentAlly(us, i, j) then Some(Key(0, us[j].uid)) else None);
    LeastIsLeast(keys);
    assert AllyToRally(us, i) == Least(keys);
    forall j | 0 <= j < |us| ensures Beside(us, i, j) <==> keys[j].Some? {
      BesideIsAdjacent(us, i, j);
    }
    if Least(keys).Some? { assert keys[Least(keys).value].Some?; }
  }

  /** A foe of `i` stands on the board. */
  predicate Opposes(us: seq<Fighter>, i: nat, j: nat)
    requires i < |us| && j < |us|
  {
    us[j].OnBoard() && us[j].team != us[i].team
  }

  /** Nobody but unit `i` has changed, and it in nothing but its place. */
  predicate OnlyMoved(f: Field, i: nat, g: Field)
    requires i < |f.us|
  {
    && |g.us| == |f.us| && g.casualties == f.casualties && g.blows == f.blows
    && (forall j :: 0 <= j < |f.us| && j != i ==> g.us[j] == f.us[j])
    && g.us[i] == f.us[i].(pos := g.us[i].pos)
  }

  /** Nobody but unit `j` has changed, and it in nothing but its hit points or rally. */
  predicate OnlyTended(f: Field, j: nat, g: Field)
    requires j < |f.us|
  {
    && |g.us| == |f.us| && g.casualties == f.casualties && g.blows == f.blows
    && (forall k :: 0 <= k < |f.us| && k != j ==> g.us[k] == f.us[k])
    && g.us[j] == f.us[j].(hp := g.us[j].hp, rally := g.us[j].rally)
  }

  /** A sawbones with foes about and a badly hurt ally beside it patches that ally instead of
      anything else: a d8, up to full strength. */
  lemma SawbonesPatches(board: Board, f: Field, i: nat, f': Field, dice: seq<int>)
    requires board.Valid() && i < |f.us| && Standing(board, f.us) && ActStep(board, f, i, f', dice)
    requires exists j :: 0 <= j < |f.us| && Opposes(f.us, i, j)
    requires f.us[i].spec.cls == "Sawbones" && exists j :: 0 <= j < |f.us| && BadlyHurt(f.us, i, j)
    ensures WorstHurtAlly(f.us, i).Some? && |dice| == 1 && 1 <= dice[0] <= 8
    ensures var t := WorstHurtAlly(f.us, i).value;
      && OnlyTended(f, t, f') && f'.us[t].rally == f.us[t].rally
      && f'.us[t].hp == if f.us[t].hp + dice[0] <= f.us[t].spec.hp then f.us[t].hp + dice[0] else f.us[t].spec.hp
  {
    WorstHurtIsWorst(f.us, i);
    var j :| 0 <= j < |f.us| && Opposes(f.us, i, j);
    assert IsFoe(f.us, i, j);
  }

  /** With no foe about, nothing is done. */
  lemma NothingWithoutFoes(board: Board, f: Field, i: nat, f': Field, dice: seq<int>)
    requires board.Valid() && i < |f.us| && Standing(board, f.us) && ActStep(board, f, i, f', dice)
    requires forall j :: 0 <= j < |f.us| ==> !Opposes(f.us, i, j)
    ensures f' == f && dice == []
  {
    if NearestEnemy(f.us, i).Some? { assert Opposes(f.us, i, NearestEnemy(f.us, i).value); }
  }

  /** From where it stands a unit attacks its nearest foe when that is in range; else a sergeant with
      somebody beside it gives that ally two points of rally; else it does nothing. */
  lemma StrikeMeans(board: Board, g: Field, i: nat, f': Field, dice: seq<int>)
    requires board.Valid() && i < |g.us| && Standing(board, g.us) && StrikeStep(board, g, i, f', dice)
    requires NearestEnemy(g.us, i).Some?
    ensures var t := NearestEnemy(g.us, i).value;
      Near(g.us[i].pos, g.us[t].pos, g.us[i].spec.attackRange) ==>
        board.InBounds(g.us[t].pos) && AttackStep(board, g, i, t, f', dice)
    ensures var t := NearestEnemy(g.us, i).value;
      !Near(g.us[i].pos, g.us[t].pos, g.us[i].spec.attackRange) ==>
        dice == [] && Rallies(g, i, f')
  {
    var t := NearestEnemy(g.us, i).value;
    NearIsChebyshev(g.us[i].pos, g.us[t].pos, g.us[i].spec.attackRange);
    assert Sane(board, g.us[t]);
  }

  predicate Rallies(g: Field, i: nat, f': Field)
    requires i < |g.us|
  {
    if g.us[i].spec.cls == "Sergeant" && AllyToRally(g.us, i).Some? then
      var t := AllyToRally(g.us, i).value;
      OnlyTended(g, t, f') && f'.us[t].hp == g.us[t].hp && f'.us[t].rally == 2
    else f' == g
  }

  lemma StillFoes(f: Field, i: nat, g: Field, j: nat)
    requires i < |f.us| && OnlyMoved(f, i, g) && j < |f.us| && Opposes(f.us, i, j)
    ensures IsFoe(f.us, i, j) && IsFoe(g.us, i, j)
  {
    assert i != j;
  }

  lemma ActMoves(board: Board, f: Field, i: nat, t: nat, f': Field, dice: seq<int>) returns (p: Pos)
    requires board.Valid() && i < |f.us| && Standing(board, f.us) && ActStep(board, f, i, f', dice)
    requires NearestEnemy(f.us, i) == Some(t) && !CanPatch(f.us, i)
    ensures MoveStep(board, f.us, i, t, p) && Standing(board, Moved(f, i, p).us)
    ensures StrikeStep(board, Moved(f, i, p), i, f', dice)
  {
    p :| MoveStep(board, f.us, i, t, p) && Standing(board, Moved(f, i, p).us)
         && StrikeStep(board, Moved(f, i, p), i, f', dice);
  }

  lemma CannotPatch(us: seq<Fighter>, i: nat)
    requires i < |us| && (us[i].spec.cls != "Sawbones" || forall j :: 0 <= j < |us| ==> !BadlyHurt(us, i, j))
    ensures !CanPatch(us, i)
  {
    WorstHurtIsWorst(us, i);
  }

  lemma MovedIsOnlyMoved(f: Field, i: nat, p: Pos)
    requires i < |f.us|
    ensures OnlyMoved(f, i, Moved(f, i, p)) && Moved(f, i, p).us[i].pos == p
  {}

  /** Otherwise a unit moves, and strikes from where it then stands, at whoever is nearest there. */
  lemma OthersMoveAndStrike(board: Board, f: Field, i: nat, f': Field, dice: seq<int>) returns (g: Field)
    requires board.Valid() && i < |f.us| && Standing(board, f.us) && ActStep(board, f, i, f', dice)
    requires exists j :: 0 <= j < |f.us| && Opposes(f.us, i, j)
    requires f.us[i].spec.cls != "Sawbones" || forall j :: 0 <= j < |f.us| ==> !BadlyHurt(f.us, i, j)
    ensures NearestEnemy(f.us, i).Some? && OnlyMoved(f, i, g) && Standing(board, g.us)
    ensures MoveStep(board, f.us, i, NearestEnemy(f.us, i).value, g.us[i].pos)
    ensures NearestEnemy(g.us, i).Some? && StrikeStep(board, g, i, f', dice)
  {
    var j :| 0 <= j < |f.us| && Opposes(f.us, i, j);
    assert IsFoe(f.us, i, j);
    CannotPatch(f.us, i);
    var p := ActMoves(board, f, i, NearestEnemy(f.us, i).value, f', dice);
    g := Moved(f, i, p);
    MovedIsOnlyMoved(f, i, p);
    StillFoes(f, i, g, j);
  }

  // --- moving ---

  /** A tile from which the target is in range. */
  predicate InRangeOf(target: Pos, range: int, p: Pos) {
    Near(p, target, range)
  }

  lemma ReachIsInRange(board: Board, target: Pos, range: int, p: Pos)
    requires board.Valid()
    ensures p in InReach(board, target, range) <==> board.Passable(p) && InRangeOf(target, range, p)
  {
    NearIsChebyshev(p, target, range);
  }

  lemma AtNoDistance(board: Board, blocked: set<Pos>, goals: set<Pos>, p: Pos)
    requires board.Valid() && IsDistance(board, blocked, goals, p, 0)
    ensures p in goals
  {
    var path :| IsPath(board, blocked, goals, path, p) && |path| == 1;
  }

  lemma PathTail(board: Board, blocked: set<Pos>, goals: set<Pos>, path: seq<Pos>, p: Pos)
    requires board.Valid() && IsPath(board, blocked, goals, path, p) && |path| > 1
    ensures Adjacent(p, path[1]) && IsPath(board, blocked, goals, path[1..], path[1])
  {}

  lemma PathLonger(board: Board, blocked: set<Pos>, goals: set<Pos>, path: seq<Pos>, p: Pos, q: Pos)
    requires board.Valid() && IsPath(board, blocked, goals, path, q) && Adjacent(p, q) && Free(board, blocked, p)
    ensures IsPath(board, blocked, goals, [p] + path, p)
  {
    assert ([p] + path)[1..] == path;
  }

  lemma StepNearer(board: Board, blocked: set<Pos>, goals: set<Pos>, field: map<Pos, nat>, p: Pos) returns (q: Pos)
    requires board.Valid() && Exact(board, blocked, goals, field) && p in field && field[p] > 0
    ensures q in field && Adjacent(p, q) && field[q] == field[p] - 1
  {
    var path :| IsPath(board, blocked, goals, path, p) && |path| == field[p] + 1;
    PathTail(board, blocked, goals, path, p);
    q := path[1];
    assert CanReach(board, blocked, goals, q);
    var shortest :| IsPath(board, blocked, goals, shortest, q) && |shortest| == field[q] + 1;
    PathLonger(board, blocked, goals, shortest, p, q);
  }

  lemma ExactIsGrounded(board: Board, blocked: set<Pos>, goals: set<Pos>, field: map<Pos, nat>)
    requires board.Valid() && Exact(board, blocked, goals, field)
    ensures Grounded(board, blocked, goals, field)
  {
    forall p | p in field ensures Free(board, blocked, p) {
      var path :| IsPath(board, blocked, goals, path, p);
    }
    forall p | p in field && field[p] == 0 ensures p in goals { AtNoDistance(board, blocked, goals, p); }
    forall p | p in field && field[p] > 0
      ensures exists q :: q in field && Adjacent(p, q) && field[q] == field[p] - 1
    {
      var q := StepNearer(board, blocked, goals, field, p);
    }
  }

  /** In range already, a unit stays. Out of range, it ends on a free tile; and when it can walk in
      `d` steps over free tiles, and no fewer, to one from which its target is in range, it gets there
      if it may walk that far, and else comes as near as it may walk. */
  lemma MovesIntoRange(board: Board, us: seq<Fighter>, i: nat, t: nat, p: Pos, d: nat)
    requires board.Valid() && i < |us| && t < |us| && MoveStep(board, us, i, t, p)
    ensures InRangeOf(us[t].pos, us[i].spec.attackRange, us[i].pos) ==> p == us[i].pos
    ensures !InRangeOf(us[t].pos, us[i].spec.attackRange, us[i].pos) ==>
      var goals := InReach(board, us[t].pos, us[i].spec.attackRange);
      && Free(board, Occupied(us, i), p)
      && (IsDistance(board, Occupied(us, i), goals, us[i].pos, d) ==>
            && IsDistance(board, Occupied(us, i), goals, p, if d >= us[i].spec.move then d - us[i].spec.move else 0)
            && (d <= us[i].spec.move ==> InRangeOf(us[t].pos, us[i].spec.attackRange, p)))
  {
    var range := us[i].spec.attackRange;
    NearIsChebyshev(us[i].pos, us[t].pos, range);
    if !InRangeOf(us[t].pos, range, us[i].pos) {
      var blocked, goals := Occupied(us, i), InReach(board, us[t].pos, range);
      var field :| Exact(board, blocked, goals, field) && p == Walk(field, us[i].pos, us[i].spec.move);
      if IsDistance(board, blocked, goals, us[i].pos, d) {
        ExactIsGrounded(board, blocked, goals, field);
        WalkLandsAtDistance(board, blocked, goals, field, us[i].pos, us[i].spec.move);
        if d <= us[i].spec.move {
          AtNoDistance(board, blocked, goals, p);
          ReachIsInRange(board, us[t].pos, range, p);
        }
      }
    }
  }

  // --- morale ---

  function Standers(us: seq<Fighter>, team: Team): set<nat> {
    set j: nat | 0 <= j < |us| && us[j].OnBoard() && us[j].team == team
  }

  function Enlisted(us: seq<Fighter>, team: Team): set<nat> {
    set j: nat | 0 <= j < |us| && us[j].team == team
  }

  lemma OneMoreStander(us: seq<Fighter>, team: Team)
    requires us != []
    ensures var n := |us| - 1;
      && Standers(us, team) == Standers(us[..n], team) + (if us[n].OnBoard() && us[n].team == team then {n} else {})
      && n !in Standers(us[..n], team)
  {
    var n := |us| - 1;
    forall j: nat | j in Standers(us, team)
      ensures j in Standers(us[..n], team) + if us[n].OnBoard() && us[n].team == team then {n} else {}
    {
      if j < n { assert us[..n][j] == us[j]; }
    }
  }

  lemma OneMoreEnlisted(us: seq<Fighter>, team: Team)
    requires us != []
    ensures var n := |us| - 1;
      && Enlisted(us, team) == Enlisted(us[..n], team) + (if us[n].team == team then {n} else {})
      && n !in Enlisted(us[..n], team)
  {
    var n := |us| - 1;
    forall j: nat | j in Enlisted(us, team) ensures j in Enlisted(us[..n], team) + if us[n].team == team then {n} else {} {
      if j < n { assert us[..n][j] == us[j]; }
    }
  }

  lemma {:induction false} CountOnIsSize(us: seq<Fighter>, team: Team)
    ensures CountOn(us, team) == |Standers(us, team)|
  {
    if us != [] {
      CountOnIsSize(us[..|us| - 1], team);
      OneMoreStander(us, team);
    }
  }

  lemma {:induction false} CountTeamIsSize(us: seq<Fighter>, team: Team)
    ensures CountTeam(us, team) == |Enlisted(us, team)|
  {
    if us != [] {
      CountTeamIsSize(us[..|us| - 1], team);
      OneMoreEnlisted(us, team);
    }
  }

  /** A bannerman of its side, itself included, stands within two tiles of it. */
  ghost predicate UnderBanner(us: seq<Fighter>, i: nat)
    requires i < |us|
  {
    exists j :: 0 <= j < |us| && us[j].OnBoard() && us[j].team == us[i].team && us[j].spec.cls == "Bannerman"
                && Near(us[j].pos, us[i].pos, 2)
  }

  lemma BannerHolds(us: seq<Fighter>, i: nat)
    requires i < |us|
    ensures HoldSuppressed(us, i) <==> UnderBanner(us, i)
  {
    forall j | 0 <= j < |us| ensures Chebyshev(us[j].pos, us[i].pos) <= 2 <==> Near(us[j].pos, us[i].pos, 2) {
      NearIsChebyshev(us[j].pos, us[i].pos, 2);
    }
    if HoldSuppressed(us, i) {
      var j :| 0 <= j < |us| && us[j].OnBoard() && us[j].team == us[i].team
               && us[j].spec.cls == "Bannerman" && Chebyshev(us[j].pos, us[i].pos) <= 2;
      assert Near(us[j].pos, us[i].pos, 2);
    }
    if UnderBanner(us, i) {
      var j :| 0 <= j < |us| && us[j].OnBoard() && us[j].team == us[i].team && us[j].spec.cls == "Bannerman"
               && Near(us[j].pos, us[i].pos, 2);
      assert Chebyshev(us[j].pos, us[i].pos) <= 2;
    }
  }

  /** A unit rolls for morale exactly when fewer than half of the `start` its side began with are
      still standing, no banner is near, and it is not the captain; it flees exactly when it rolls
      and the d20 shows six or less; and fleeing changes nothing else. */
  lemma FleesOnSix(f: Field, start: nat, i: nat, flees: bool, f': Field, dice: seq<int>)
    requires i < |f.us| && MoraleStep(f, start, i, flees, f', dice)
    ensures |dice| == 1 <==>
      f.us[i].spec.cls != "Vorlund" && 2 * |Standers(f.us, f.us[i].team)| < start && !UnderBanner(f.us, i)
    ensures |dice| <= 1 && (|dice| == 1 ==> 1 <= dice[0] <= 20)
    ensures flees <==> |dice| == 1 && dice[0] <= 6
    ensures f' == if flees then f.(us := f.us[i := f.us[i].(fled := true)]) else f
  {
    BannerHolds(f.us, i);
    CountOnIsSize(f.us, f.us[i].team);
  }

  // --- the end of a round ---

  ghost predicate StandsFor(us: seq<Fighter>, team: Team) {
    exists j :: 0 <= j < |us| && us[j].OnBoard() && us[j].team == team
  }

  /** From round `holdRounds` on, with company within a tile of the objective, the enemies left run. */
  ghost predicate Holds(us: seq<Fighter>, s: Script, rnd: nat) {
    && s.holdRounds != 0 && rnd >= s.holdRounds && s.objective.Some?
    && (exists j :: 0 <= j < |us| && us[j].OnBoard() && us[j].team == Company && Near(us[j].pos, s.objective.value, 1))
    && StandsFor(us, Enemy)
  }

  lemma HoldsBreaks(us: seq<Fighter>, s: Script, rnd: nat)
    ensures AttackersBreak(us, s, rnd) <==> Holds(us, s, rnd)
  {
    if s.objective.Some? {
      forall j | 0 <= j < |us|
        ensures Chebyshev(us[j].pos, s.objective.value) <= 1 <==> Near(us[j].pos, s.objective.value, 1)
      {
        NearIsChebyshev(us[j].pos, s.objective.value, 1);
      }
      if AttackersBreak(us, s, rnd) {
        var j :| 0 <= j < |us| && us[j].OnBoard() && us[j].team == Company
                 && Chebyshev(us[j].pos, s.objective.value) <= 1;
        assert Near(us[j].pos, s.objective.value, 1);
      }
      if Holds(us, s, rnd) {
        var j :| 0 <= j < |us| && us[j].OnBoard() && us[j].team == Company && Near(us[j].pos, s.objective.value, 1);
        assert Chebyshev(us[j].pos, s.objective.value) <= 1;
      }
    }
  }

  function Running(u: Fighter): Fighter {
    if u.OnBoard() && u.team == Enemy then u.(fled := true) else u
  }

  function Crushed(u: Fighter): Fighter {
    if u.OnBoard() then u.(alive := false, hp := 0) else u
  }

  /** The uids of those on the board among the first `n`, in list order. */
  function OnBoardUids(us: seq<Fighter>, n: nat): seq<Id>
    requires n <= |us|
  {
    if n == 0 then [] else OnBoardUids(us, n - 1) + if us[n - 1].OnBoard() then [us[n - 1].uid] else []
  }

  lemma {:induction false} MeltAwayIs(f: Field, n: nat)
    requires n <= |f.us|
    ensures var g := MeltAwayUpTo(f, n);
      && (forall j :: 0 <= j < |f.us| ==> g.us[j] == if j < n then Running(f.us[j]) else f.us[j])
      && g.casualties == f.casualties && g.blows == f.blows
    decreases n
  {
    if n > 0 { MeltAwayIs(f, n - 1); }
  }

  lemma {:induction false} CollapseIs(f: Field, n: nat)
    requires n <= |f.us|
    ensures var g := CollapseUpTo(f, n);
      && (forall j :: 0 <= j < |f.us| ==> g.us[j] == if j < n then Crushed(f.us[j]) else f.us[j])
      && g.casualties == f.casualties + OnBoardUids(f.us, n)
      && (forall v :: v in g.blows <==> v in f.blows || v in OnBoardUids(f.us, n))
      && (forall v :: v in g.blows ==> g.blows[v] == if v in OnBoardUids(f.us, n) then "" else f.blows[v])
    decreases n
  {
    if n > 0 {
      CollapseIs(f, n - 1);
      var g := CollapseUpTo(f, n - 1);
      CollapseUnrolls(f, n, g);
      if f.us[n - 1].OnBoard() {
        Regroup(f.casualties, OnBoardUids(f.us, n - 1), [f.us[n - 1].uid]);
      }
    }
  }

  /** The only one of the company on the board, with enemies about. */
  ghost predicate StandsAlone(us: seq<Fighter>, j: nat)
    requires j < |us|
  {
    Standers(us, Company) == {j} && StandsFor(us, Enemy)
  }

  lemma OnlyStander(us: seq<Fighter>, j: nat)
    requires j < |us| && us[j].OnBoard() && us[j].team == Company
    ensures CountOn(us, Company) == 1 <==> Standers(us, Company) == {j}
  {
    CountOnIsSize(us, Company);
    assert j in Standers(us, Company);
    if |Standers(us, Company)| == 1 {
      assert |Standers(us, Company) - {j}| == 0;
    }
  }

  lemma LoneStandIs(f: Field)
    ensures var g := LoneStand(f);
      && |g.us| == |f.us| && g.casualties == f.casualties && g.blows == f.blows
      && forall j :: 0 <= j < |f.us| ==> g.us[j] == f.us[j].(alone := f.us[j].alone + if StandsAlone(f.us, j) then 1 else 0)
  {
    forall j | 0 <= j < |f.us|
      ensures LoneStand(f).us[j] == f.us[j].(alone := f.us[j].alone + if StandsAlone(f.us, j) then 1 else 0)
    {
      assert StandsFor(f.us, Enemy) <==> AnyOn(f.us, Enemy);
      if StandsAlone(f.us, j) { assert j in Standers(f.us, Company) && AnyOn(f.us, Company); }
      if AnyOn(f.us, Company) {
        var k := FirstOn(f.us, Company);
        OnlyStander(f.us, k);
        assert k in Standers(f.us, Company);
      }
    }
  }

  /** The site comes down on both sides. */
  ghost predicate ComesDown(us: seq<Fighter>, s: Script, rnd: nat) {
    && s.collapseRound != 0 && rnd >= s.collapseRound
    && StandsFor(us, Company) && StandsFor(us, Enemy) && !Holds(us, s, rnd)
  }

  /** What unit `j` is like after the round's scripted endings. */
  ghost function EndedAs(us: seq<Fighter>, s: Script, rnd: nat, j: nat): Fighter
    requires j < |us|
  {
    var u := us[j].(alone := us[j].alone + if StandsAlone(us, j) then 1 else 0);
    if Holds(us, s, rnd) then Running(u) else if ComesDown(us, s, rnd) then Crushed(u) else u
  }

  ghost predicate SameStand(us: seq<Fighter>, vs: seq<Fighter>) {
    |vs| == |us| && forall j :: 0 <= j < |us| ==> vs[j] == us[j].(alone := vs[j].alone)
  }

  lemma SameStandSameEnd(us: seq<Fighter>, vs: seq<Fighter>, s: Script, rnd: nat)
    requires SameStand(us, vs)
    ensures Holds(vs, s, rnd) <==> Holds(us, s, rnd)
    ensures forall team :: StandsFor(vs, team) <==> StandsFor(us, team)
  {
    forall team ensures StandsFor(vs, team) <==> StandsFor(us, team) { SameStandsFor(us, vs, team); }
    if s.objective.Some? {
      var o := s.objective.value;
      if j :| 0 <= j < |us| && us[j].OnBoard() && us[j].team == Company && Near(us[j].pos, o, 1) {
        assert vs[j].OnBoard() && vs[j].team == Company && Near(vs[j].pos, o, 1);
      }
      if j :| 0 <= j < |vs| && vs[j].OnBoard() && vs[j].team == Company && Near(vs[j].pos, o, 1) {
        assert us[j].OnBoard() && us[j].team == Company && Near(us[j].pos, o, 1);
      }
    }
  }

  lemma SameStandsFor(us: seq<Fighter>, vs: seq<Fighter>, team: Team)
    requires SameStand(us, vs)
    ensures StandsFor(vs, team) <==> StandsFor(us, team)
  {
    if j :| 0 <= j < |us| && us[j].OnBoard() && us[j].team == team { assert vs[j].OnBoard() && vs[j].team == team; }
    if j :| 0 <= j < |vs| && vs[j].OnBoard() && vs[j].team == team { assert us[j].OnBoard() && us[j].team == team; }
  }

  lemma {:induction false} SameStandSameUids(us: seq<Fighter>, vs: seq<Fighter>, n: nat)
    requires SameStand(us, vs) && n <= |us|
    ensures OnBoardUids(vs, n) == OnBoardUids(us, n)
    decreases n
  {
    if n > 0 {
      SameStandSameUids(us, vs, n - 1);
      assert vs[n - 1] == us[n - 1].(alone := vs[n - 1].alone);
    }
  }

  /** Once the enemies have run, there is nothing left to come down on. */
  lemma RunNoCollapse(us: seq<Fighter>, vs: seq<Fighter>, s: Script, rnd: nat)
    requires |vs| == |us| && forall j :: 0 <= j < |us| ==> vs[j] == Running(us[j])
    ensures !Collapses(vs, s, rnd)
  {
    forall j | 0 <= j < |vs| ensures !(vs[j].OnBoard() && vs[j].team == Enemy) {
      assert vs[j] == Running(us[j]);
    }
  }

  /** What the collapse of the site adds to the casualties and the blows. */
  ghost predicate CrushedAccounts(f: Field, g: Field) {
    var fallen := OnBoardUids(f.us, |f.us|);
    && g.casualties == f.casualties + fallen
    && (forall v :: v in g.blows <==> v in f.blows || v in fallen)
    && (forall v :: v in g.blows ==> g.blows[v] == if v in fallen then "" else f.blows[v])
  }

  lemma HeldEnd(f: Field, s: Script, rnd: nat)
    requires Holds(f.us, s, rnd)
    ensures !CollapsesAt(f, s, rnd) && RoundEnd(f, s, rnd) == MeltAwayUpTo(LoneStand(f), |f.us|)
  {
    var a := LoneStand(f);
    LoneStandIs(f);
    SameStandSameEnd(f.us, a.us, s, rnd);
    HoldsBreaks(a.us, s, rnd);
    MeltAwayIs(a, |a.us|);
    RunNoCollapse(a.us, MeltAwayUpTo(a, |a.us|).us, s, rnd);
  }

  lemma MeltedEnd(f: Field, s: Script, rnd: nat)
    requires Holds(f.us, s, rnd)
    ensures var g := MeltAwayUpTo(LoneStand(f), |f.us|);
      && |g.us| == |f.us| && (forall j :: 0 <= j < |f.us| ==> g.us[j] == EndedAs(f.us, s, rnd, j))
      && g.casualties == f.casualties && g.blows == f.blows
  {
    LoneStandIs(f);
    MeltAwayIs(LoneStand(f), |f.us|);
  }

  lemma UnheldEnd(f: Field, s: Script, rnd: nat)
    requires !Holds(f.us, s, rnd)
    ensures CollapsesAt(f, s, rnd) <==> ComesDown(f.us, s, rnd)
    ensures RoundEnd(f, s, rnd) ==
      if ComesDown(f.us, s, rnd) then CollapseUpTo(LoneStand(f), |f.us|) else LoneStand(f)
  {
    var a := LoneStand(f);
    LoneStandIs(f);
    SameStandSameEnd(f.us, a.us, s, rnd);
    HoldsBreaks(a.us, s, rnd);
    assert StandsFor(a.us, Company) <==> AnyOn(a.us, Company);
    assert StandsFor(a.us, Enemy) <==> AnyOn(a.us, Enemy);
  }

  lemma CrushedEnd(f: Field, s: Script, rnd: nat)
    requires ComesDown(f.us, s, rnd)
    ensures var g := CollapseUpTo(LoneStand(f), |f.us|);
      && |g.us| == |f.us| && (forall j :: 0 <= j < |f.us| ==> g.us[j] == EndedAs(f.us, s, rnd, j))
      && CrushedAccounts(f, g)
  {
    var a := LoneStand(f);
    LoneStandIs(f);
    CollapseIs(a, |a.us|);
    SameStandSameUids(f.us, a.us, |f.us|);
  }

  /** The end of a round, unit by unit: the company's last stander facing enemies is credited; then
      the enemies run if the objective was held; then the site comes down on everybody left, killed
      by nobody and listed in order, if it was due and both sides still stood. */
  lemma RoundEndIs(f: Field, s: Script, rnd: nat)
    ensures var g := RoundEnd(f, s, rnd);
      && |g.us| == |f.us| && (forall j :: 0 <= j < |f.us| ==> g.us[j] == EndedAs(f.us, s, rnd, j))
      && (CollapsesAt(f, s, rnd) <==> ComesDown(f.us, s, rnd))
      && if ComesDown(f.us, s, rnd) then CrushedAccounts(f, g)
         else g.casualties == f.casualties && g.blows == f.blows
  {
    if Holds(f.us, s, rnd) {
      HeldEnd(f, s, rnd);
      MeltedEnd(f, s, rnd);
    } else {
      UnheldEnd(f, s, rnd);
      LoneStandIs(f);
      if ComesDown(f.us, s, rnd) { CrushedEnd(f, s, rnd); }
    }
  }

  // --- turns and rounds ---

  ghost predicate BothStand(us: seq<Fighter>) {
    StandsFor(us, Company) && StandsFor(us, Enemy)
  }

  lemma OverIffGone(us: seq<Fighter>)
    ensures Over(us) <==> !BothStand(us)
  {
    assert StandsFor(us, Company) <==> AnyOn(us, Company);
    assert StandsFor(us, Enemy) <==> AnyOn(us, Enemy);
  }

  /** The turn of a unit on the board: at most one die for its morale; if it breaks it flees and that
      is all; else it acts with the dice that follow. */
  lemma TurnIs(board: Board, start: Strengths, f: Field, i: nat, f': Field, dice: seq<int>) returns (n: nat)
    requires board.Valid() && UnitTurn(board, start, f, i, f', dice) && f.us[i].OnBoard()
    ensures n <= |dice| && n <= 1
    ensures n == 1 <==>
      && f.us[i].spec.cls != "Vorlund" && !UnderBanner(f.us, i)
      && 2 * |Standers(f.us, f.us[i].team)| < if f.us[i].team == Company then start.company else start.enemy
    ensures if n == 1 && dice[0] <= 6 then |dice| == 1 && f' == f.(us := f.us[i := f.us[i].(fled := true)])
            else ActStep(board, f, i, f', dice[n..])
  {
    var s := start.Of(f.us[i].team);
    if MoraleStep(f, s, i, true, f', dice) {
      n := 1;
      FleesOnSix(f, s, i, true, f', dice);
    } else {
      n :| 0 <= n <= |dice| && StoodAndActed(board, start, f, i, f', dice, n);
      FleesOnSix(f, s, i, false, f, dice[..n]);
      assert |dice[..n]| == n && (n == 1 ==> dice[..n][0] == dice[0]);
    }
  }

  /** A unit off the board has no turn. */
  lemma NoTurnOffTheBoard(board: Board, start: Strengths, f: Field, i: nat, f': Field, dice: seq<int>)
    requires board.Valid() && UnitTurn(board, start, f, i, f', dice) && !f.us[i].OnBoard()
    ensures f' == f && dice == []
  {}

  /** A round's turns are taken in order, by everybody, until one of them leaves a side with nobody on
      the board; that turn is the last. */
  lemma RoundStopsAtOnce(board: Board, start: Strengths, order: seq<nat>, t: Trace, k: nat)
    requires board.Valid() && PlayedTurns(board, start, order, t) && k < |t.dice|
    ensures |t.fields| == |t.dice| + 1 && |t.dice| <= |order|
    ensures UnitTurn(board, start, t.fields[k], order[k], t.fields[k + 1], t.dice[k])
    ensures t.fields[k].us[order[k]].OnBoard() && !BothStand(t.fields[k + 1].us) ==> k == |t.dice| - 1
    ensures k == |t.dice| - 1 && k < |order| - 1 ==>
      t.fields[k].us[order[k]].OnBoard() && !BothStand(t.fields[k + 1].us)
  {
    OverIffGone(t.fields[k + 1].us);
    if t.fields[k].us[order[k]].OnBoard() { assert TookTurn(order, t, k); }
  }

  /** A round begins where the last one's scripted endings left the field, and only while both sides
      still stand. */
  lemma BattleStopsAtOnce(board: Board, start: Strengths, s: Script, order: seq<nat>, f: Field, rounds: seq<Trace>, r: nat)
    requires board.Valid() && PlayedRounds(board, start, s, order, f, rounds) && r < |rounds|
    ensures PlayedTurns(board, start, order, rounds[r]) && rounds[r].fields != []
    ensures r == 0 ==> rounds[0].fields[0] == f
    ensures r > 0 ==>
      && rounds[r - 1].fields != [] && BothStand(rounds[r].fields[0].us)
      && rounds[r].fields[0] == RoundEnd(rounds[r - 1].fields[|rounds[r - 1].fields| - 1], s, r)
  {
    assert rounds[r] in rounds && StartsRight(s, f, rounds, r);
    OverIffGone(rounds[r].fields[0].us);
  }
}
