/** A skirmish as a value: the units, the casualty list, the killing blows, and what actions do to them. */
module Skirmish {
  import opened Common
  import opened Grid

  datatype Team = Company | Enemy

  datatype UnitSpec = UnitSpec(
    cls: string, hp: int, armor: int, melee: int, ranged: int, move: nat, initiative: int,
    damageDie: int, damageBonus: int, attackRange: int)

  /** One unit's live state. */
  datatype Fighter = Fighter(
    uid: Id, team: Team, spec: UnitSpec, pos: Pos, hp: int, alive: bool, fled: bool,
    kills: nat, rally: int, alone: nat)
  {
    predicate OnBoard() {
      alive && !fled
    }
  }

  /** `blows` names each casualty's killer; "" is the site itself. */
  datatype Field = Field(us: seq<Fighter>, casualties: seq<Id>, blows: map<Id, Id>)

  // --- what always holds ---

  ghost predicate Sane(board: Board, u: Fighter)
    requires board.Valid()
  {
    && u.uid != "" && u.spec.damageDie >= 1
    && 0 <= u.hp <= u.spec.hp
    && (u.alive <==> u.hp > 0)
    && (u.fled ==> u.alive)
    && (u.OnBoard() ==> board.Passable(u.pos))
  }

  ghost predicate Standing(board: Board, us: seq<Fighter>)
    requires board.Valid()
  {
    && (forall i :: 0 <= i < |us| ==> Sane(board, us[i]))
    && (forall i, j :: 0 <= i < j < |us| ==> us[i].uid != us[j].uid)
    && (forall i, j :: 0 <= i < j < |us| && us[i].OnBoard() && us[j].OnBoard() ==> us[i].pos != us[j].pos)
  }

  /** How many of the casualties fell to `uid`. */
  function BlowsBy(casualties: seq<Id>, blows: map<Id, Id>, uid: Id): nat {
    if casualties == [] then 0
    else
      var v := casualties[|casualties| - 1];
      BlowsBy(casualties[..|casualties| - 1], blows, uid) + if v in blows && blows[v] == uid then 1 else 0
  }

  ghost predicate ListsTheDead(us: seq<Fighter>, casualties: seq<Id>) {
    forall i :: 0 <= i < |us| ==> (us[i].uid in casualties <==> !us[i].alive)
  }

  ghost predicate IsUnit(us: seq<Fighter>, v: Id) {
    exists i :: 0 <= i < |us| && us[i].uid == v
  }

  ghost predicate AllUnits(us: seq<Fighter>, casualties: seq<Id>) {
    forall v :: v in casualties ==> IsUnit(us, v)
  }

  ghost predicate KillsAreBlows(us: seq<Fighter>, casualties: seq<Id>, blows: map<Id, Id>) {
    forall i :: 0 <= i < |us| ==> us[i].kills == BlowsBy(casualties, blows, us[i].uid)
  }

  /** The casualty list, the killing blows and the kill counts tell the same story: the list is
      exactly the dead, without repeats; a blow is recorded for exactly the listed; and each
      unit's count is the number of blows credited to it. */
  ghost predicate Accounted(f: Field) {
    && NoDup(f.casualties)
    && ListsTheDead(f.us, f.casualties)
    && AllUnits(f.us, f.casualties)
    && (forall v :: v in f.blows <==> v in f.casualties)
    && KillsAreBlows(f.us, f.casualties, f.blows)
  }

  ghost predicate Foes(us: seq<Fighter>, v: Id, k: Id) {
    exists i, j :: 0 <= i < |us| && 0 <= j < |us| && us[i].uid == v && us[j].uid == k && us[i].team != us[j].team
  }

  /** Every blow with a name to it was struck by the other team. */
  ghost predicate BlowsCrossLines(f: Field) {
    forall v :: v in f.blows && f.blows[v] != "" ==> Foes(f.us, v, f.blows[v])
  }

  ghost predicate Sound(board: Board, f: Field)
    requires board.Valid()
  {
    Standing(board, f.us) && Accounted(f) && BlowsCrossLines(f)
  }

  // --- the actions ---

  /** Where the other units stand. */
  ghost function Occupied(us: seq<Fighter>, i: int): set<Pos> {
    set j | 0 <= j < |us| && j != i && us[j].OnBoard() :: us[j].pos
  }

  function Set(f: Field, i: nat, u: Fighter): Field
    requires i < |f.us|
  {
    f.(us := f.us[i := u])
  }

  function Moved(f: Field, i: nat, p: Pos): Field
    requires i < |f.us|
  {
    Set(f, i, f.us[i].(pos := p))
  }

  function Fled(f: Field, i: nat): Field
    requires i < |f.us|
  {
    Set(f, i, f.us[i].(fled := true))
  }

  function Min(a: int, b: int): int {
    if a <= b then a else b
  }

  function Max(a: int, b: int): int {
    if a >= b then a else b
  }

  function Healed(f: Field, i: nat, heal: int): Field
    requires i < |f.us|
  {
    Set(f, i, f.us[i].(hp := Min(f.us[i].spec.hp, f.us[i].hp + heal)))
  }

  function Rallied(f: Field, i: nat, bonus: int): Field
    requires i < |f.us|
  {
    Set(f, i, f.us[i].(rally := bonus))
  }

  /** `v` dies; the blow and the kill go to `killer`, if there is one. */
  function Slain(f: Field, v: nat, killer: Option<nat>): Field
    requires v < |f.us| && (killer.Some? ==> killer.value < |f.us|)
  {
    var id := f.us[v].uid;
    var us := f.us[v := f.us[v].(alive := false, hp := 0)];
    match killer
    case None => Field(us, f.casualties + [id], f.blows[id := ""])
    case Some(k) =>
      Field(us[k := us[k].(kills := us[k].kills + 1)], f.casualties + [id], f.blows[id := us[k].uid])
  }

  /** `d` loses `damage` hit points to `a`, and dies if that takes the last one. */
  function Wounded(f: Field, a: nat, d: nat, damage: int): Field
    requires a < |f.us| && d < |f.us|
  {
    var hurt := Set(f, d, f.us[d].(hp := f.us[d].hp - damage));
    if hurt.us[d].hp <= 0 then Slain(hurt, d, Some(a)) else hurt
  }

  /** `a` has attacked `d`: the rally bonus is spent, and a hit wounds. */
  function Attacked(f: Field, a: nat, d: nat, hit: bool, damage: int): Field
    requires a < |f.us| && d < |f.us|
  {
    var spent := Rallied(f, a, 0);
    if hit then Wounded(spent, a, d, damage) else spent
  }

  /** A battle starts with everyone alive and nothing to account for. */
  lemma FreshFieldIsSound(board: Board, us: seq<Fighter>)
    requires board.Valid() && Standing(board, us)
    requires forall i :: 0 <= i < |us| ==> us[i].alive && us[i].kills == 0
    ensures Sound(board, Field(us, [], map[]))
  {}

  // --- each action keeps the field sound ---

  lemma {:induction false} BlowsByOthers(casualties: seq<Id>, blows: map<Id, Id>, v: Id, k: Id, uid: Id)
    requires v !in casualties
    ensures BlowsBy(casualties, blows[v := k], uid) == BlowsBy(casualties, blows, uid)
  {
    if casualties != [] {
      BlowsByOthers(casualties[..|casualties| - 1], blows, v, k, uid);
    }
  }

  /** The same units, dead or alive, with the same kills. */
  ghost predicate SameRecord(us: seq<Fighter>, us': seq<Fighter>) {
    |us| == |us'| && forall i :: 0 <= i < |us| ==>
      us[i].uid == us'[i].uid && us[i].team == us'[i].team && us[i].alive == us'[i].alive && us[i].kills == us'[i].kills
  }

  lemma UnitsKept(us: seq<Fighter>, us': seq<Fighter>, casualties: seq<Id>)
    requires |us| == |us'| && forall i :: 0 <= i < |us| ==> us[i].uid == us'[i].uid
    requires AllUnits(us, casualties)
    ensures AllUnits(us', casualties)
  {
    forall v | v in casualties ensures IsUnit(us', v) {
      assert IsUnit(us, v);
      var k :| 0 <= k < |us| && us[k].uid == v;
      assert us'[k].uid == v;
    }
  }

  lemma RecordKept(us: seq<Fighter>, us': seq<Fighter>, casualties: seq<Id>, blows: map<Id, Id>)
    requires SameRecord(us, us')
    ensures ListsTheDead(us, casualties) ==> ListsTheDead(us', casualties)
    ensures KillsAreBlows(us, casualties, blows) ==> KillsAreBlows(us', casualties, blows)
  {}

  lemma SetSameRecord(us: seq<Fighter>, i: nat, u: Fighter)
    requires i < |us|
    requires u.uid == us[i].uid && u.team == us[i].team && u.alive == us[i].alive && u.kills == us[i].kills
    ensures SameRecord(us, us[i := u])
  {}

  /** A change to one unit that leaves identity, life and kills alone. */
  lemma SetKeepsAccounts(f: Field, i: nat, u: Fighter)
    requires i < |f.us| && Accounted(f) && BlowsCrossLines(f)
    requires u.uid == f.us[i].uid && u.team == f.us[i].team && u.alive == f.us[i].alive && u.kills == f.us[i].kills
    ensures Accounted(Set(f, i, u)) && BlowsCrossLines(Set(f, i, u))
  {
    var us' := f.us[i := u];
    SetSameRecord(f.us, i, u);
    RecordKept(f.us, us', f.casualties, f.blows);
    UnitsKept(f.us, us', f.casualties);
    FoesKept(f.us, us');
  }

  /** Teams and names never change, so neither does who is whose foe. */
  lemma FoesKept(us: seq<Fighter>, us': seq<Fighter>)
    requires |us| == |us'|
    requires forall i :: 0 <= i < |us| ==> us[i].uid == us'[i].uid && us[i].team == us'[i].team
    ensures forall v, k :: Foes(us, v, k) ==> Foes(us', v, k)
  {
    forall v, k | Foes(us, v, k) ensures Foes(us', v, k) {
      var i, j :| 0 <= i < |us| && 0 <= j < |us| && us[i].uid == v && us[j].uid == k && us[i].team != us[j].team;
      assert us'[i].uid == v && us'[j].uid == k;
    }
  }

  lemma SetKeepsStanding(board: Board, us: seq<Fighter>, i: nat, u: Fighter)
    requires board.Valid() && i < |us| && Standing(board, us)
    requires u.uid == us[i].uid && Sane(board, u)
    requires u.OnBoard() ==> u.pos !in Occupied(us, i)
    ensures Standing(board, us[i := u])
  {
    var w := us[i := u];
    forall j, k | 0 <= j < k < |w| && w[j].OnBoard() && w[k].OnBoard() ensures w[j].pos != w[k].pos {
      if j == i { assert us[k].pos in Occupied(us, i); }
      if k == i { assert us[j].pos in Occupied(us, i); }
    }
  }

  /** On the board, a unit's own tile is not among the others'. */
  lemma OwnTileIsFree(board: Board, us: seq<Fighter>, i: nat)
    requires board.Valid() && i < |us| && Standing(board, us) && us[i].OnBoard()
    ensures us[i].pos !in Occupied(us, i)
  {}

  /** Moving onto a free tile, fleeing, healing and rallying keep the field sound. */
  lemma SetKeepsSound(board: Board, f: Field, i: nat, u: Fighter)
    requires board.Valid() && i < |f.us| && Sound(board, f)
    requires u.uid == f.us[i].uid && u.team == f.us[i].team && u.alive == f.us[i].alive && u.kills == f.us[i].kills
    requires Sane(board, u)
    requires u.OnBoard() ==> u.pos !in Occupied(f.us, i)
    ensures Sound(board, Set(f, i, u))
  {
    SetKeepsAccounts(f, i, u);
    SetKeepsStanding(board, f.us, i, u);
  }

  // --- a death ---

  lemma {:induction false} BlowsOfNewCasualty(casualties: seq<Id>, blows: map<Id, Id>, v: Id, k: Id, uid: Id)
    requires v !in casualties
    ensures BlowsBy(casualties + [v], blows[v := k], uid)
         == BlowsBy(casualties, blows, uid) + if k == uid then 1 else 0
  {
    assert (casualties + [v])[..|casualties|] == casualties;
    BlowsByOthers(casualties, blows, v, k, uid);
  }

  /** A death changes nobody's name or side, and nobody else's life. */
  lemma SlainShape(f: Field, v: nat, killer: Option<nat>)
    requires v < |f.us| && (killer.Some? ==> killer.value < |f.us| && killer.value != v)
    ensures var g := Slain(f, v, killer);
      && |g.us| == |f.us|
      && (forall i :: 0 <= i < |f.us| ==>
            && g.us[i].uid == f.us[i].uid && g.us[i].team == f.us[i].team
            && g.us[i].alive == (f.us[i].alive && i != v)
            && g.us[i].kills == f.us[i].kills + if killer == Some(i) then 1 else 0)
  {}

  /** The list gains the new death, and is still exactly the dead. */
  lemma SlainListsTheDead(us: seq<Fighter>, us': seq<Fighter>, casualties: seq<Id>, v: nat)
    requires v < |us| == |us'| && ListsTheDead(us, casualties)
    requires forall i, j :: 0 <= i < j < |us| ==> us[i].uid != us[j].uid
    requires forall i :: 0 <= i < |us| ==> us'[i].uid == us[i].uid && us'[i].alive == (us[i].alive && i != v)
    ensures ListsTheDead(us', casualties + [us[v].uid])
  {}

  lemma SlainKeepsCasualties(f: Field, v: nat, killer: Option<nat>)
    requires Accounted(f) && v < |f.us| && f.us[v].alive
    requires forall i, j :: 0 <= i < j < |f.us| ==> f.us[i].uid != f.us[j].uid
    requires killer.Some? ==> killer.value < |f.us| && killer.value != v
    ensures var g := Slain(f, v, killer);
      && NoDup(g.casualties)
      && ListsTheDead(g.us, g.casualties)
      && AllUnits(g.us, g.casualties)
      && (forall w :: w in g.blows <==> w in g.casualties)
  {
    var g, id := Slain(f, v, killer), f.us[v].uid;
    NoDupExtended(f.casualties, id);
    SlainShape(f, v, killer);
    SlainListsTheDead(f.us, g.us, f.casualties, v);
    assert g.casualties == f.casualties + [id];
    UnitsKept(f.us, g.us, f.casualties);
    assert IsUnit(g.us, id) by { assert g.us[v].uid == id; }
  }

  /** Exactly the killer's count goes up, by the blow that was credited. */
  lemma SlainKeepsKills(f: Field, v: nat, killer: Option<nat>)
    requires v < |f.us| && f.us[v].uid !in f.casualties
    requires forall i, j :: 0 <= i < j < |f.us| ==> f.us[i].uid != f.us[j].uid
    requires forall i :: 0 <= i < |f.us| ==> f.us[i].uid != ""
    requires KillsAreBlows(f.us, f.casualties, f.blows)
    requires killer.Some? ==> killer.value < |f.us| && killer.value != v
    ensures var g := Slain(f, v, killer); KillsAreBlows(g.us, g.casualties, g.blows)
  {
    var g, id := Slain(f, v, killer), f.us[v].uid;
    var k := if killer.Some? then f.us[killer.value].uid else "";
    SlainShape(f, v, killer);
    assert g.casualties == f.casualties + [id] && g.blows == f.blows[id := k];
    forall i | 0 <= i < |g.us| ensures g.us[i].kills == BlowsBy(g.casualties, g.blows, g.us[i].uid) {
      assert k == f.us[i].uid <==> killer == Some(i);
      BlowsOfNewCasualty(f.casualties, f.blows, id, k, f.us[i].uid);
    }
  }

  lemma SlainKeepsStanding(board: Board, f: Field, v: nat, killer: Option<nat>)
    requires board.Valid() && Standing(board, f.us) && v < |f.us| && f.us[v].OnBoard()
    requires killer.Some? ==> killer.value < |f.us| && killer.value != v
    ensures Standing(board, Slain(f, v, killer).us)
  {}

  lemma SlainCrossesLines(f: Field, v: nat, killer: Option<nat>)
    requires BlowsCrossLines(f) && v < |f.us|
    requires killer.Some? ==>
      killer.value < |f.us| && killer.value != v && f.us[killer.value].team != f.us[v].team
    ensures BlowsCrossLines(Slain(f, v, killer))
  {
    var g := Slain(f, v, killer);
    FoesKept(f.us, g.us);
    if killer.Some? {
      assert g.us[v].uid == f.us[v].uid && g.us[killer.value].uid == f.us[killer.value].uid;
      assert Foes(g.us, f.us[v].uid, f.us[killer.value].uid);
    }
  }

  /** A unit on the board dies, to a foe or to the site. */
  lemma SlainKeepsSound(board: Board, f: Field, v: nat, killer: Option<nat>)
    requires board.Valid() && Sound(board, f) && v < |f.us| && f.us[v].OnBoard()
    requires killer.Some? ==> killer.value < |f.us| && f.us[killer.value].team != f.us[v].team
    ensures Sound(board, Slain(f, v, killer))
  {
    SlainKeepsCasualties(f, v, killer);
    SlainKeepsKills(f, v, killer);
    SlainKeepsStanding(board, f, v, killer);
    SlainCrossesLines(f, v, killer);
  }

  lemma WoundKeepsSound(board: Board, f: Field, d: nat, left: int)
    requires board.Valid() && Sound(board, f) && d < |f.us| && f.us[d].OnBoard() && 0 < left <= f.us[d].hp
    ensures Sound(board, Set(f, d, f.us[d].(hp := left)))
  {
    OwnTileIsFree(board, f.us, d);
    SetKeepsSound(board, f, d, f.us[d].(hp := left));
  }

  lemma RallyKeepsSound(board: Board, f: Field, i: nat, bonus: int)
    requires board.Valid() && Sound(board, f) && i < |f.us| && f.us[i].OnBoard()
    ensures Sound(board, Rallied(f, i, bonus))
  {
    OwnTileIsFree(board, f.us, i);
    SetKeepsSound(board, f, i, f.us[i].(rally := bonus));
  }

  /** An attack on a foe keeps the field sound, hit or miss, wound or kill. */
  lemma AttackedKeepsSound(board: Board, f: Field, a: nat, d: nat, hit: bool, damage: int)
    requires board.Valid() && Sound(board, f) && a < |f.us| && d < |f.us|
    requires f.us[a].OnBoard() && f.us[d].OnBoard() && f.us[a].team != f.us[d].team
    requires hit ==> damage >= 1
    ensures Sound(board, Attacked(f, a, d, hit, damage))
  {
    RallyKeepsSound(board, f, a, 0);
    if hit {
      WoundedKeepsSound(board, Rallied(f, a, 0), a, d, damage);
    }
  }

  lemma WoundedKeepsSound(board: Board, f: Field, a: nat, d: nat, damage: int)
    requires board.Valid() && Sound(board, f) && a < |f.us| && d < |f.us|
    requires f.us[d].OnBoard() && f.us[a].team != f.us[d].team && damage >= 1
    ensures Sound(board, Wounded(f, a, d, damage))
  {
    var left := f.us[d].hp - damage;
    if left > 0 {
      WoundKeepsSound(board, f, d, left);
      assert Wounded(f, a, d, damage) == Set(f, d, f.us[d].(hp := left));
    } else {
      SlainKeepsSound(board, f, d, Some(a));
      SlainOverwrites(f, d, left, a);
      assert Wounded(f, a, d, damage) == Slain(f, d, Some(a));
    }
  }

  lemma SlainOverwrites(f: Field, d: nat, left: int, a: nat)
    requires d < |f.us| && a < |f.us|
    ensures Slain(Set(f, d, f.us[d].(hp := left)), d, Some(a)) == Slain(f, d, Some(a))
  {
    var us := f.us[d := f.us[d].(hp := left)];
    assert us[d := us[d].(alive := false, hp := 0)] == f.us[d := f.us[d].(alive := false, hp := 0)];
  }
}
