/** The fixed policy of a skirmish: who is chosen, what is rolled for, and how a round ends. */
module Tactics {
  import opened Common
  import opened Grid
  import opened Walking
  import opened Skirmish

  // --- choosing the least candidate ---

  /** A candidate's sort key: a number, ties going to the smaller uid. */
  datatype Key = Key(n: int, uid: Id)

  predicate KeyLess(a: Key, b: Key) {
    a.n < b.n || (a.n == b.n && StringLess(a.uid, b.uid))
  }

  lemma KeyLessTransitive(a: Key, b: Key, c: Key)
    requires KeyLess(a, b) && KeyLess(b, c)
    ensures KeyLess(a, c)
  {
    if a.n == b.n && b.n == c.n {
      StringLeTransitive(a.uid, b.uid, c.uid);
      StringLeTotal(a.uid, b.uid);
    }
  }

  /** The index of the least key present, the first of equals; `None` marks a non-candidate. */
  function Least(keys: seq<Option<Key>>): (r: Option<nat>)
    ensures r.Some? ==> r.value < |keys| && keys[r.value].Some?
    ensures r == None ==> forall i :: 0 <= i < |keys| ==> keys[i] == None
  {
    if keys == [] then None
    else
      var n, best := |keys| - 1, Least(keys[..|keys| - 1]);
      if keys[n] == None then best
      else if best == None || KeyLess(keys[n].value, keys[best.value].value) then Some(n)
      else best
  }

  lemma {:induction false} LeastIsLeast(keys: seq<Option<Key>>)
    ensures Least(keys).Some? ==> forall i :: 0 <= i < |keys| && keys[i].Some? ==>
      !KeyLess(keys[i].value, keys[Least(keys).value].value)
  {
    if keys != [] {
      var n, front := |keys| - 1, keys[..|keys| - 1];
      LeastIsLeast(front);
      forall i | 0 <= i < |keys| && keys[i].Some? && Least(keys).Some?
        ensures !KeyLess(keys[i].value, keys[Least(keys).value].value)
      {
        if i < n {
          assert front[i] == keys[i];
          var best := Least(front);
          if Least(keys) == Some(n) && KeyLess(keys[i].value, keys[n].value) {
            KeyLessTransitive(keys[i].value, keys[n].value, front[best.value].value);
          }
        } else {
          StringLeTotal(keys[n].value.uid, keys[n].value.uid);
        }
      }
    }
  }

  predicate IsFoe(us: seq<Fighter>, i: nat, j: nat)
    requires i < |us| && j < |us|
  {
    us[j].OnBoard() && us[j].team != us[i].team
  }

  predicate IsAdjacentAlly(us: seq<Fighter>, i: nat, j: nat)
    requires i < |us| && j < |us|
  {
    us[j].OnBoard() && us[j].team == us[i].team && j != i && Chebyshev(us[j].pos, us[i].pos) <= 1
  }

  /** The nearest foe on the board, by Chebyshev distance. */
  function NearestEnemy(us: seq<Fighter>, i: nat): (t: Option<nat>)
    requires i < |us|
    ensures t.Some? ==> t.value < |us| && IsFoe(us, i, t.value)
    ensures t == None ==> forall j :: 0 <= j < |us| ==> !IsFoe(us, i, j)
  {
    var keys := seq(|us|, j requires 0 <= j < |us| =>
      if IsFoe(us, i, j) then Some(Key(Chebyshev(us[i].pos, us[j].pos), us[j].uid)) else None);
    var t := Least(keys);
    assert t == None ==> forall j :: 0 <= j < |us| ==> keys[j] == None && !IsFoe(us, i, j);
    t
  }

  /** The worst-hurt adjacent ally below half strength. */
  function WorstHurtAlly(us: seq<Fighter>, i: nat): (t: Option<nat>)
    requires i < |us|
    ensures t.Some? ==> t.value < |us| && IsAdjacentAlly(us, i, t.value)
                        && us[t.value].hp * 2 < us[t.value].spec.hp
  {
    Least(seq(|us|, j requires 0 <= j < |us| =>
      if IsAdjacentAlly(us, i, j) && us[j].hp * 2 < us[j].spec.hp then Some(Key(us[j].hp, us[j].uid)) else None))
  }

  function AllyToRally(us: seq<Fighter>, i: nat): (t: Option<nat>)
    requires i < |us|
    ensures t.Some? ==> t.value < |us| && IsAdjacentAlly(us, i, t.value)
  {
    Least(seq(|us|, j requires 0 <= j < |us| =>
      if IsAdjacentAlly(us, i, j) then Some(Key(0, us[j].uid)) else None))
  }

  /** The target is a foe, and no foe is nearer, or as near with a smaller uid. */
  lemma NearestEnemyIsNearest(us: seq<Fighter>, i: nat, j: nat)
    requires i < |us| && j < |us| && IsFoe(us, i, j)
    ensures NearestEnemy(us, i).Some?
    ensures var t := NearestEnemy(us, i).value;
      !KeyLess(Key(Chebyshev(us[i].pos, us[j].pos), us[j].uid),
               Key(Chebyshev(us[i].pos, us[t].pos), us[t].uid))
  {
    var keys := seq(|us|, j requires 0 <= j < |us| =>
      if IsFoe(us, i, j) then Some(Key(Chebyshev(us[i].pos, us[j].pos), us[j].uid)) else None);
    LeastIsLeast(keys);
    assert keys[j].Some?;
  }

  // --- the attack roll ---

  /** A skirmisher flanks when another unit of the side stands next to the target. */
  predicate Flanked(us: seq<Fighter>, a: nat, d: nat)
    requires a < |us| && d < |us|
  {
    exists j :: 0 <= j < |us| && us[j].OnBoard() && j != a && us[j].team == us[a].team
                && Chebyshev(us[j].pos, us[d].pos) <= 1
  }

  function ToHit(board: Board, us: seq<Fighter>, a: nat, d: nat): int
    requires board.Valid() && a < |us| && d < |us| && board.InBounds(us[d].pos)
  {
    var ranged := Chebyshev(us[a].pos, us[d].pos) > 1;
    (if ranged then us[a].spec.ranged else us[a].spec.melee)
    + us[a].rally
    + (if us[a].spec.cls == "Skirmisher" && Flanked(us, a, d) then 3 else 0)
    - (if ranged && board.Tile(us[d].pos) == COVER && us[a].spec.cls != "Crossbow" then 4 else 0)
  }

  ghost predicate Rolled(v: int, sides: int) {
    1 <= v <= sides
  }

  /** One attack under the dice it rolled: a d20 to hit, and the weapon's die if it did. */
  ghost predicate AttackStep(board: Board, f: Field, a: nat, d: nat, f': Field, dice: seq<int>)
    requires board.Valid() && a < |f.us| && d < |f.us| && board.InBounds(f.us[d].pos)
  {
    && |dice| >= 1 && Rolled(dice[0], 20)
    && var hit := dice[0] + ToHit(board, f.us, a, d) >= 10 + f.us[d].spec.armor;
    && |dice| == (if hit then 2 else 1)
    && (hit ==> Rolled(dice[1], f.us[a].spec.damageDie))
    && f' == Attacked(f, a, d, hit, if hit then Max(1, dice[1] + f.us[a].spec.damageBonus) else 0)
  }

  // --- one unit's action ---

  /** The tiles from which the target is in range. */
  function InReach(board: Board, target: Pos, range: int): set<Pos>
    requires board.Valid()
  {
    set x, y | 0 <= x < 10 && 0 <= y < 10 && board.Passable(Pos(x, y))
               && Chebyshev(Pos(x, y), target) <= range :: Pos(x, y)
  }

  /** Where the walk towards the goal set ends: on a free tile, down the exact distance field. */
  ghost predicate Approached(board: Board, blocked: set<Pos>, goals: set<Pos>, start: Pos, move: nat, p: Pos)
    requires board.Valid()
  {
    Free(board, blocked, p) && exists field :: Exact(board, blocked, goals, field) && p == Walk(field, start, move)
  }

  ghost predicate MoveStep(board: Board, us: seq<Fighter>, i: nat, t: nat, p: Pos)
    requires board.Valid() && i < |us| && t < |us|
  {
    if Chebyshev(us[i].pos, us[t].pos) > us[i].spec.attackRange then
      Approached(board, Occupied(us, i), InReach(board, us[t].pos, us[i].spec.attackRange),
                 us[i].pos, us[i].spec.move, p)
    else p == us[i].pos
  }

  /** After moving: attack the nearest foe if in range, else a sergeant steadies an ally. */
  ghost predicate StrikeStep(board: Board, f: Field, i: nat, f': Field, dice: seq<int>)
    requires board.Valid() && i < |f.us| && Standing(board, f.us)
  {
    var t := NearestEnemy(f.us, i);
    if t.Some? && Chebyshev(f.us[i].pos, f.us[t.value].pos) <= f.us[i].spec.attackRange then
      AttackStep(board, f, i, t.value, f', dice)
    else if f.us[i].spec.cls == "Sergeant" && AllyToRally(f.us, i).Some? then
      f' == Rallied(f, AllyToRally(f.us, i).value, 2) && dice == []
    else
      f' == f && dice == []
  }

  ghost predicate CanPatch(us: seq<Fighter>, i: nat)
    requires i < |us|
  {
    us[i].spec.cls == "Sawbones" && WorstHurtAlly(us, i).Some?
  }

  /** The whole action of one unit, under the dice it rolled. */
  ghost predicate ActStep(board: Board, f: Field, i: nat, f': Field, dice: seq<int>)
    requires board.Valid() && i < |f.us| && Standing(board, f.us)
  {
    match NearestEnemy(f.us, i)
    case None => f' == f && dice == []
    case Some(t) =>
      if CanPatch(f.us, i) then
        |dice| == 1 && Rolled(dice[0], 8) && f' == Healed(f, WorstHurtAlly(f.us, i).value, dice[0])
      else
        exists p :: MoveStep(board, f.us, i, t, p) && Standing(board, Moved(f, i, p).us)
                    && StrikeStep(board, Moved(f, i, p), i, f', dice)
  }

  lemma MovedThenStruck(board: Board, f: Field, i: nat, t: nat, p: Pos, f': Field, dice: seq<int>)
    requires board.Valid() && i < |f.us| && Standing(board, f.us)
    requires NearestEnemy(f.us, i) == Some(t) && !CanPatch(f.us, i)
    requires MoveStep(board, f.us, i, t, p) && Standing(board, Moved(f, i, p).us)
    requires StrikeStep(board, Moved(f, i, p), i, f', dice)
    ensures ActStep(board, f, i, f', dice)
  {}

  // --- actions keep the field sound ---

  lemma MoveKeepsSound(board: Board, f: Field, i: nat, t: nat, p: Pos)
    requires board.Valid() && i < |f.us| && t < |f.us| && Sound(board, f) && f.us[i].OnBoard()
    requires MoveStep(board, f.us, i, t, p)
    ensures Sound(board, Moved(f, i, p))
  {
    OwnTileIsFree(board, f.us, i);
    SetKeepsSound(board, f, i, f.us[i].(pos := p));
  }

  /** The part of an action's effect that the end of a battle depends on. */
  ghost predicate Acted(f: Field, i: nat, f': Field)
    requires i < |f.us|
  {
    && |f'.us| == |f.us| && f'.us[i].OnBoard()
    && (forall j :: 0 <= j < |f.us| ==> f'.us[j].uid == f.us[j].uid && f'.us[j].team == f.us[j].team)
    && f.casualties <= f'.casualties
  }

  lemma AttackStepKeepsSound(board: Board, f: Field, a: nat, d: nat, f': Field, dice: seq<int>)
    requires board.Valid() && a < |f.us| && d < |f.us| && Sound(board, f)
    requires f.us[a].OnBoard() && IsFoe(f.us, a, d) && board.InBounds(f.us[d].pos)
    requires AttackStep(board, f, a, d, f', dice)
    ensures Sound(board, f') && Acted(f, a, f')
  {
    var hit := dice[0] + ToHit(board, f.us, a, d) >= 10 + f.us[d].spec.armor;
    AttackedKeepsSound(board, f, a, d, hit, if hit then Max(1, dice[1] + f.us[a].spec.damageBonus) else 0);
  }

  lemma StrikeKeepsSound(board: Board, f: Field, i: nat, f': Field, dice: seq<int>)
    requires board.Valid() && i < |f.us| && Sound(board, f) && f.us[i].OnBoard()
    requires StrikeStep(board, f, i, f', dice)
    ensures Sound(board, f') && Acted(f, i, f')
  {
    var t := NearestEnemy(f.us, i);
    if t.Some? && Chebyshev(f.us[i].pos, f.us[t.value].pos) <= f.us[i].spec.attackRange {
      AttackStepKeepsSound(board, f, i, t.value, f', dice);
    } else if f.us[i].spec.cls == "Sergeant" && AllyToRally(f.us, i).Some? {
      RallyKeepsSound(board, f, AllyToRally(f.us, i).value, 2);
    }
  }

  lemma HealedIsSane(board: Board, u: Fighter, heal: int)
    requires board.Valid() && Sane(board, u) && u.alive && heal >= 1
    ensures Sane(board, u.(hp := Min(u.spec.hp, u.hp + heal)))
  {}

  lemma HealKeepsSound(board: Board, f: Field, i: nat, heal: int)
    requires board.Valid() && i < |f.us| && Sound(board, f) && f.us[i].OnBoard() && heal >= 1
    ensures Sound(board, Healed(f, i, heal))
  {
    var u := f.us[i].(hp := Min(f.us[i].spec.hp, f.us[i].hp + heal));
    OwnTileIsFree(board, f.us, i);
    HealedIsSane(board, f.us[i], heal);
    assert Healed(f, i, heal) == Set(f, i, u);
    SetKeepsSound(board, f, i, u);
  }

  lemma PatchKeepsSound(board: Board, f: Field, i: nat, j: nat, heal: int)
    requires board.Valid() && i < |f.us| && Sound(board, f) && f.us[i].OnBoard()
    requires j < |f.us| && f.us[j].OnBoard() && heal >= 1
    ensures Sound(board, Healed(f, j, heal)) && Acted(f, i, Healed(f, j, heal))
  {
    HealKeepsSound(board, f, j, heal);
  }

  lemma MoveThenStrikeKeepsSound(
      board: Board, f: Field, i: nat, t: nat, p: Pos, f': Field, dice: seq<int>)
    requires board.Valid() && i < |f.us| && t < |f.us| && Sound(board, f) && f.us[i].OnBoard()
    requires MoveStep(board, f.us, i, t, p) && Standing(board, Moved(f, i, p).us)
    requires StrikeStep(board, Moved(f, i, p), i, f', dice)
    ensures Sound(board, f') && Acted(f, i, f')
  {
    var g := Moved(f, i, p);
    MoveKeepsSound(board, f, i, t, p);
    StrikeKeepsSound(board, g, i, f', dice);
    MovedActs(f, i, p);
    ActedTransitive(f, g, f', i);
  }

  lemma MovedActs(f: Field, i: nat, p: Pos)
    requires i < |f.us| && f.us[i].OnBoard()
    ensures Acted(f, i, Moved(f, i, p))
  {}

  lemma ActedTransitive(f: Field, g: Field, h: Field, i: nat)
    requires i < |f.us| && Acted(f, i, g) && Acted(g, i, h)
    ensures Acted(f, i, h)
  {}

  /** Whatever a unit does on its turn and however its dice fall, the field stays sound and the
      unit itself stays on the board. */
  lemma ActKeepsSound(board: Board, f: Field, i: nat, f': Field, dice: seq<int>)
    requires board.Valid() && i < |f.us| && Sound(board, f) && f.us[i].OnBoard()
    requires ActStep(board, f, i, f', dice)
    ensures Sound(board, f') && Acted(f, i, f')
  {
    match NearestEnemy(f.us, i) {
      case None =>
      case Some(t) =>
        if CanPatch(f.us, i) {
          PatchKeepsSound(board, f, i, WorstHurtAlly(f.us, i).value, dice[0]);
        } else {
          var p :| MoveStep(board, f.us, i, t, p) && Standing(board, Moved(f, i, p).us)
                   && StrikeStep(board, Moved(f, i, p), i, f', dice);
          MoveThenStrikeKeepsSound(board, f, i, t, p, f', dice);
        }
    }
  }

  // --- morale ---

  function CountOn(us: seq<Fighter>, team: Team): nat {
    if us == [] then 0
    else CountOn(us[..|us| - 1], team)
         + if us[|us| - 1].OnBoard() && us[|us| - 1].team == team then 1 else 0
  }

  function CountTeam(us: seq<Fighter>, team: Team): nat {
    if us == [] then 0
    else CountTeam(us[..|us| - 1], team) + if us[|us| - 1].team == team then 1 else 0
  }

  /** A planted banner keeps allies within two tiles, its bearer included, from fleeing. */
  predicate HoldSuppressed(us: seq<Fighter>, i: nat)
    requires i < |us|
  {
    exists j :: 0 <= j < |us| && us[j].OnBoard() && us[j].team == us[i].team
                && us[j].spec.cls == "Bannerman" && Chebyshev(us[j].pos, us[i].pos) <= 2
  }

  /** Morale is rolled once the team is below half its starting strength; `start` is that. */
  predicate MoraleLive(us: seq<Fighter>, start: nat, i: nat)
    requires i < |us|
  {
    us[i].spec.cls != "Vorlund" && CountOn(us, us[i].team) * 2 < start && !HoldSuppressed(us, i)
  }

  ghost predicate MoraleStep(f: Field, start: nat, i: nat, flees: bool, f': Field, dice: seq<int>)
    requires i < |f.us|
  {
    if MoraleLive(f.us, start, i) then
      && |dice| == 1 && Rolled(dice[0], 20)
      && flees == (dice[0] + 5 < 12) && f' == if flees then Fled(f, i) else f
    else
      !flees && f' == f && dice == []
  }

  lemma FledKeepsSound(board: Board, f: Field, i: nat)
    requires board.Valid() && i < |f.us| && Sound(board, f) && f.us[i].alive
    ensures Sound(board, Fled(f, i))
  {
    SetKeepsSound(board, f, i, f.us[i].(fled := true));
  }

  // --- who is left ---

  predicate AnyOn(us: seq<Fighter>, team: Team) {
    exists j :: 0 <= j < |us| && us[j].OnBoard() && us[j].team == team
  }

  predicate Over(us: seq<Fighter>) {
    !AnyOn(us, Company) || !AnyOn(us, Enemy)
  }

  /** Nobody is left standing on either side. */
  predicate Empty(us: seq<Fighter>) {
    !AnyOn(us, Company) && !AnyOn(us, Enemy)
  }

  /** The unit that just acted is still there, so its action cannot empty the field. */
  lemma ActorRemains(f: Field, i: nat, f': Field)
    requires i < |f.us| && Acted(f, i, f')
    ensures !Empty(f'.us)
  {
    assert f'.us[i].OnBoard();
  }

  /** While both sides stand, one unit fleeing leaves the other side standing. */
  lemma OneFleeingLeavesOthers(f: Field, i: nat)
    requires i < |f.us| && !Over(f.us)
    ensures !Empty(Fled(f, i).us)
  {
    var us := Fled(f, i).us;
    var c :| 0 <= c < |f.us| && f.us[c].OnBoard() && f.us[c].team == Company;
    var e :| 0 <= e < |f.us| && f.us[e].OnBoard() && f.us[e].team == Enemy;
    assert c != e;
    if c == i { assert us[e].OnBoard(); } else { assert us[c].OnBoard(); }
  }
}
