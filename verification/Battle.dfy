/** The skirmish engine: units updated in place, round by round, under one stream of dice. */
module Battle {
  import opened Common
  import opened Grid
  import Walking
  import opened Skirmish
  import opened Tactics
  import opened Rounds
  import opened Turns
  import StableSort

  class Unit {
    const uid: Id
    const team: Team
    const spec: UnitSpec
    var pos: Pos
    var hp: int
    var alive: bool
    var fled: bool
    var kills: nat
    var rally: int
    var alone: nat

    /** A unit given no hit points starts with its full strength. */
    constructor (uid: Id, team: Team, spec: UnitSpec, pos: Pos, hp: int)
      ensures View() == Fighter(uid, team, spec, pos, if hp == 0 then spec.hp else hp, true, false, 0, 0, 0)
    {
      this.uid, this.team, this.spec, this.pos := uid, team, spec, pos;
      this.hp := if hp == 0 then spec.hp else hp;
      alive, fled, kills, rally, alone := true, false, 0, 0, 0;
    }

    predicate OnBoard()
      reads this
    {
      alive && !fled
    }

    function View(): Fighter
      reads this
    {
      Fighter(uid, team, spec, pos, hp, alive, fled, kills, rally, alone)
    }
  }

  /** A unit's place in the initiative order: `i` indexes the unit list. */
  datatype Slot = Slot(initiative: int, uid: Id, i: nat)

  function ByInitiative(): (Slot, Slot) -> bool {
    (a: Slot, b: Slot) => a.initiative > b.initiative || (a.initiative == b.initiative && StringLe(a.uid, b.uid))
  }

  lemma ByInitiativeIsTotal()
    ensures StableSort.TotalPreorder(ByInitiative())
  {
    var le := ByInitiative();
    forall a, b ensures le(a, b) || le(b, a) { StringLeTotal(a.uid, b.uid); }
    forall a, b, c | le(a, b) && le(b, c) ensures le(a, c) {
      if a.initiative == b.initiative && b.initiative == c.initiative {
        StringLeTransitive(a.uid, b.uid, c.uid);
      }
    }
  }

  datatype BattleReport = BattleReport(
    outcome: Outcome, rounds: nat, casualties: seq<Id>, survivors: seq<Id>, blows: map<Id, Id>)

  /** The uids of everyone alive at the end, on the board or fled. */
  function Survivors(us: seq<Fighter>): seq<Id> {
    if us == [] then []
    else Survivors(us[..|us| - 1]) + if us[|us| - 1].alive then [us[|us| - 1].uid] else []
  }

  lemma {:induction false} SurvivorsAreTheLiving(us: seq<Fighter>, uid: Id)
    ensures uid in Survivors(us) <==> exists i :: 0 <= i < |us| && us[i].uid == uid && us[i].alive
  {
    if us != [] {
      var front := us[..|us| - 1];
      SurvivorsAreTheLiving(front, uid);
      assert forall i :: 0 <= i < |front| ==> front[i] == us[i];
      if exists i :: 0 <= i < |us| && us[i].uid == uid && us[i].alive {
        var i :| 0 <= i < |us| && us[i].uid == uid && us[i].alive;
        assert i == |us| - 1 || front[i].uid == uid;
      }
    }
  }

  method Approach(board: Board, blocked: set<Pos>, goals: set<Pos>, start: Pos, move: nat) returns (p: Pos)
    requires board.Valid() && Free(board, blocked, start)
    ensures Approached(board, blocked, goals, start, move, p)
  {
    ghost var field;
    p, field := Walking.StepToward(board, blocked, goals, start, move);
  }

  lemma SurvivorsAreNotCasualties(board: Board, f: Field)
    requires board.Valid() && Skirmish.Sound(board, f)
    ensures forall i :: 0 <= i < |f.us| ==>
      (f.us[i].uid in Survivors(f.us) <==> f.us[i].uid !in f.casualties)
  {
    forall i | 0 <= i < |f.us|
      ensures f.us[i].uid in Survivors(f.us) <==> f.us[i].uid !in f.casualties
    {
      SurvivorsAreTheLiving(f.us, f.us[i].uid);
    }
  }

  class Battle {
    const board: Board
    const units: seq<Unit>
    const script: Script
    const startCompany: nat
    const startEnemy: nat
    const order: seq<Slot>
    var casualties: seq<Id>
    var blows: map<Id, Id>
    /** Every roll, in order. */
    var rolls: seq<int>
    var rounds: nat

    /** A battle is set up with living, unbloodied units of distinct uids on distinct passable
        tiles; the initiative order is fixed here. */
    constructor (board: Board, units: seq<Unit>, script: Script)
      requires board.Valid() && forall i, j :: 0 <= i < j < |units| ==> units[i] != units[j]
      requires Standing(board, seq(|units|, i requires 0 <= i < |units| reads units => units[i].View()))
      requires forall i :: 0 <= i < |units| ==> units[i].alive && units[i].kills == 0
      ensures this.board == board && this.units == units && this.script == script
      ensures Valid() && casualties == [] && rolls == [] && rounds == 0
      ensures startCompany == CountTeam(Views(), Company) && startEnemy == CountTeam(Views(), Enemy)
      ensures forall k, l :: 0 <= k < l < |order| ==> order[k].initiative >= order[l].initiative
      ensures forall k, l :: 0 <= k < l < |order| && order[k].initiative == order[l].initiative ==>
        StringLe(order[k].uid, order[l].uid)
      ensures multiset(order) == multiset(Slots(units))
    {
      this.board, this.units, this.script := board, units, script;
      var us := seq(|units|, i requires 0 <= i < |units| reads units => units[i].View());
      startCompany, startEnemy := CountTeam(us, Company), CountTeam(us, Enemy);
      order := StableSort.Sort(ByInitiative(), Slots(units));
      casualties, blows, rolls, rounds := [], map[], [], 0;
      new;
      OrderIsInitiative(units, order);
      assert Views() == us;
      FreshFieldIsSound(board, us);
    }

    static lemma OrderIsInitiative(units: seq<Unit>, order: seq<Slot>)
      requires order == StableSort.Sort(ByInitiative(), Slots(units))
      ensures StableSort.Sorted(ByInitiative(), order) && multiset(order) == multiset(Slots(units))
      ensures forall k :: 0 <= k < |order| ==> order[k].i < |units|
    {
      ByInitiativeIsTotal();
      StableSort.SortIsStable(ByInitiative(), Slots(units));
      StableSort.SortContents(ByInitiative(), Slots(units));
      PermutedMembers(Slots(units), order);
      forall k | 0 <= k < |order| ensures order[k].i < |units| {
        assert order[k] in order;
      }
    }

    static function Slots(units: seq<Unit>): seq<Slot> {
      seq(|units|, i requires 0 <= i < |units| => Slot(units[i].spec.initiative, units[i].uid, i))
    }

    function Views(): seq<Fighter>
      reads units
    {
      seq(|units|, i requires 0 <= i < |units| reads units => units[i].View())
    }

    function State(): Field
      reads this, units
    {
      Field(Views(), casualties, blows)
    }

    ghost predicate Distinct() {
      forall i, j :: 0 <= i < j < |units| ==> units[i] != units[j]
    }

    ghost predicate Valid()
      reads this, units
    {
      && board.Valid() && Distinct()
      && (forall k :: 0 <= k < |order| ==> order[k].i < |units|)
      && Sound(board, State())
    }

    /** A team's strength when the battle began. */
    function StartOf(team: Team): nat {
      if team == Company then startCompany else startEnemy
    }

    function Taken(i: nat): (tiles: set<Pos>)
      reads units
      ensures tiles == Occupied(Views(), i)
    {
      assert forall j :: 0 <= j < |units| ==> Views()[j] == units[j].View();
      set j | 0 <= j < |units| && j != i && units[j].OnBoard() :: units[j].pos
    }

    method Roll(sides: int) returns (v: int)
      requires sides >= 1
      modifies this`rolls
      ensures Rolled(v, sides) && rolls == old(rolls) + [v]
    {
      v :| 1 <= v <= sides;
      rolls := rolls + [v];
    }

    method Kill(v: nat, killer: Option<nat>)
      requires Distinct() && v < |units| && (killer.Some? ==> killer.value < |units|)
      modifies this`casualties, this`blows, units[v], if killer.Some? then {units[killer.value]} else {}
      ensures State() == Slain(old(State()), v, killer)
    {
      units[v].alive := false;
      units[v].hp := 0;
      casualties := casualties + [units[v].uid];
      blows := blows[units[v].uid := if killer.Some? then units[killer.value].uid else ""];
      if killer.Some? {
        units[killer.value].kills := units[killer.value].kills + 1;
      }
      assert Views() == Slain(old(State()), v, killer).us;
    }

    /** A blow lands on `d`. */
    method Wound(a: nat, d: nat, damage: int)
      requires Distinct() && a < |units| && d < |units|
      modifies this`casualties, this`blows, units[a], units[d]
      ensures State() == Wounded(old(State()), a, d, damage)
    {
      ghost var before := State();
      units[d].hp := units[d].hp - damage;
      assert Views() == Set(before, d, before.us[d].(hp := before.us[d].hp - damage)).us;
      if units[d].hp <= 0 {
        Kill(d, Some(a));
      }
    }

    /** Attack roll against the target's armour; a rally bonus is spent, hit or miss. */
    method Attack(a: nat, d: nat) returns (ghost dice: seq<int>)
      requires board.Valid() && Distinct() && a < |units| && d < |units| && a != d
      requires units[a].spec.damageDie >= 1 && board.InBounds(units[d].pos)
      modifies this`casualties, this`blows, this`rolls, units[a], units[d]
      ensures rolls == old(rolls) + dice
      ensures AttackStep(board, old(State()), a, d, State(), dice)
    {
      ghost var before := State();
      var bonus := ToHit(board, Views(), a, d);
      units[a].rally := 0;
      var dc := 10 + units[d].spec.armor;
      var roll := Roll(20);
      assert State() == Rallied(before, a, 0);
      if roll + bonus < dc {
        dice := [roll];
        return;
      }
      var die := Roll(units[a].spec.damageDie);
      dice := [roll, die];
      assert State() == Rallied(before, a, 0);
      Wound(a, d, Max(1, die + units[a].spec.damageBonus));
    }

    /** Walk into range of unit `t`, if out of it. */
    method MoveIntoRange(i: nat, t: nat) returns (ghost p: Pos)
      requires board.Valid() && Distinct() && i < |units| && t < |units|
      requires Free(board, Occupied(Views(), i), units[i].pos)
      modifies units[i]
      ensures MoveStep(board, old(State()).us, i, t, p)
      ensures State() == Moved(old(State()), i, p)
    {
      ghost var before := State();
      var dest := units[i].pos;
      if Chebyshev(units[i].pos, units[t].pos) > units[i].spec.attackRange {
        var goals := InReach(board, units[t].pos, units[i].spec.attackRange);
        dest := Approach(board, Taken(i), goals, units[i].pos, units[i].spec.move);
      }
      p := dest;
      assert MoveStep(board, before.us, i, t, p);
      Place(i, dest);
    }

    method Place(i: nat, p: Pos)
      requires Distinct() && i < |units|
      modifies units[i]
      ensures State() == Moved(old(State()), i, p)
    {
      ghost var before := State();
      units[i].pos := p;
      assert State() == Moved(before, i, p);
    }

    method Strike(i: nat) returns (ghost dice: seq<int>)
      requires board.Valid() && Distinct() && i < |units| && Standing(board, State().us)
      modifies this`casualties, this`blows, this`rolls, units
      ensures rolls == old(rolls) + dice
      ensures StrikeStep(board, old(State()), i, State(), dice)
    {
      ghost var before := State();
      dice := [];
      var t := NearestEnemy(Views(), i);
      if t != None && Chebyshev(units[i].pos, units[t.value].pos) <= units[i].spec.attackRange {
        assert Sane(board, before.us[i]) && Sane(board, before.us[t.value]);
        dice := Attack(i, t.value);
        return;
      }
      if units[i].spec.cls == "Sergeant" {
        var ally := AllyToRally(Views(), i);
        if ally != None {
          units[ally.value].rally := 2;
          assert State() == Rallied(before, ally.value, 2);
        }
      }
    }

    /** Heal the ally `j` for a d8, up to its full strength. */
    method Patch(j: nat) returns (heal: int)
      requires Distinct() && j < |units|
      modifies this`rolls, units[j]
      ensures Rolled(heal, 8) && rolls == old(rolls) + [heal]
      ensures State() == Healed(old(State()), j, heal)
    {
      ghost var before := State();
      heal := Roll(8);
      units[j].hp := Min(units[j].spec.hp, units[j].hp + heal);
      assert State() == Healed(before, j, heal);
    }

    /** One unit's turn: patch an ally, or close with the nearest foe and strike. */
    method Act(i: nat) returns (ghost dice: seq<int>)
      requires Valid() && i < |units| && units[i].OnBoard()
      modifies this`casualties, this`blows, this`rolls, units
      ensures rolls == old(rolls) + dice
      ensures ActStep(board, old(State()), i, State(), dice)
      ensures Valid() && Acted(old(State()), i, State())
    {
      ghost var before := State();
      dice := [];
      var t := NearestEnemy(Views(), i);
      if t == None {
        return;
      }
      if units[i].spec.cls == "Sawbones" {
        var hurt := WorstHurtAlly(Views(), i);
        if hurt != None {
          var heal := Patch(hurt.value);
          dice := [heal];
          ActKeepsSound(board, before, i, State(), dice);
          return;
        }
      }
      dice := Close(i, t.value);
      ActKeepsSound(board, before, i, State(), dice);
    }

    /** Move into range of the nearest foe, and strike from there. */
    method Close(i: nat, t: nat) returns (ghost dice: seq<int>)
      requires Valid() && i < |units| && units[i].OnBoard()
      requires NearestEnemy(Views(), i) == Some(t) && !CanPatch(Views(), i)
      modifies this`casualties, this`blows, this`rolls, units
      ensures rolls == old(rolls) + dice
      ensures ActStep(board, old(State()), i, State(), dice)
    {
      ghost var before := State();
      OwnTileIsFree(board, before.us, i);
      assert Sane(board, before.us[i]);
      ghost var p := MoveIntoRange(i, t);
      MoveKeepsSound(board, before, i, t, p);
      dice := Strike(i);
      MovedThenStruck(board, before, i, t, p, State(), dice);
    }

    /** True: the unit breaks and flees the field. */
    method MoraleCheck(i: nat) returns (flees: bool, ghost dice: seq<int>)
      requires Valid() && i < |units| && units[i].OnBoard()
      modifies this`rolls, units[i]
      ensures rolls == old(rolls) + dice
      ensures MoraleStep(old(State()), StartOf(units[i].team), i, flees, State(), dice)
      ensures Valid()
    {
      ghost var before := State();
      flees, dice := false, [];
      var us := Views();
      if units[i].spec.cls == "Vorlund" {
        return;
      }
      if !(CountOn(us, units[i].team) * 2 < StartOf(units[i].team)) || HoldSuppressed(us, i) {
        return;
      }
      var roll := Roll(20);
      dice := [roll];
      if roll + 5 >= 12 {
        return;
      }
      units[i].fled := true;
      flees := true;
      assert State() == Fled(before, i);
      FledKeepsSound(board, before, i);
    }

    predicate IsOver()
      reads this, units
    {
      Over(Views())
    }

    ghost function Starts(): Strengths {
      Strengths(startCompany, startEnemy)
    }

    ghost function Indices(): seq<nat> {
      seq(|order|, k requires 0 <= k < |order| => order[k].i)
    }

    /** The turn of a unit on the board. */
    method TakeTurn(i: nat) returns (ghost dice: seq<int>)
      requires Valid() && i < |units| && units[i].OnBoard()
      modifies this`casualties, this`blows, this`rolls, units
      ensures Valid() && rolls == old(rolls) + dice && old(casualties) <= casualties
      ensures UnitTurn(board, Starts(), old(State()), i, State(), dice)
      ensures !Over(old(Views())) ==> !Empty(Views())
    {
      ghost var before, rolled := State(), rolls;
      assert before.us[i] == units[i].View();
      var flees, morale := MoraleCheck(i);
      if flees {
        Broke(board, Starts(), before, i, State(), morale);
        if !Over(before.us) { OneFleeingLeavesOthers(before, i); }
        return morale;
      }
      dice := ActAfter(i, morale);
      Regroup(rolled, morale, dice[|morale|..]);
    }

    /** A unit that stood fast acts. */
    method ActAfter(i: nat, ghost morale: seq<int>) returns (ghost dice: seq<int>)
      requires Valid() && i < |units| && units[i].OnBoard()
      requires MoraleStep(State(), StartOf(units[i].team), i, false, State(), morale)
      modifies this`casualties, this`blows, this`rolls, units
      ensures Valid() && old(casualties) <= casualties
      ensures morale <= dice && rolls == old(rolls) + dice[|morale|..] && dice == morale + dice[|morale|..]
      ensures UnitTurn(board, Starts(), old(State()), i, State(), dice)
      ensures !Over(old(Views())) ==> !Empty(Views())
    {
      ghost var before := State();
      assert before.us[i] == units[i].View();
      ghost var acted := Act(i);
      ActorRemains(before, i, State());
      dice := morale + acted;
      assert dice[|morale|..] == acted;
      StoodFast(board, Starts(), before, i, State(), morale, acted);
    }

    /** The turns so far, from `f` and with the dice rolled since `base`. */
    ghost predicate SoFar(base: seq<int>, f: Field, t: Trace)
      reads this, units
    {
      && board.Valid() && Steps(board, Starts(), Indices(), t) && GoesOn(Indices(), t, |t.dice|)
      && t.fields[0] == f && LastField(t) == State() && rolls == base + Flat(t.dice)
    }

    ghost predicate TurnsDone(base: seq<int>, f: Field, t: Trace)
      reads this, units
    {
      && board.Valid() && PlayedTurns(board, Starts(), Indices(), t)
      && t.fields[0] == f && LastField(t) == State() && rolls == base + Flat(t.dice)
    }

    /** The next unit's turn, if it is still on the board; `over` is whether that ended it. */
    method NextTurn(k: nat, ghost base: seq<int>, ghost f: Field, ghost t: Trace) returns (over: bool, ghost u: Trace)
      requires Valid() && k < |order| && |t.dice| == k && SoFar(base, f, t)
      modifies this`casualties, this`blows, this`rolls, units
      ensures Valid() && old(casualties) <= casualties && |u.dice| == k + 1
      ensures if over then Over(Views()) && TurnsDone(base, f, u) else SoFar(base, f, u)
      ensures !Over(old(Views())) ==> !Empty(Views()) && (!over ==> !Over(Views()))
    {
      var i := order[k].i;
      ghost var dice: seq<int> := [];
      over := false;
      assert LastField(t).us[i] == units[i].View();
      if units[i].OnBoard() {
        dice := TakeTurn(i);
        over := IsOver();
      }
      u := Extended(t, State(), dice);
      StepsExtended(board, Starts(), Indices(), t, State(), dice);
      GoesOnExtended(Indices(), t, State(), dice);
      FlatExtended(t, State(), dice);
      Regroup(base, Flat(t.dice), dice);
    }

    /** Every unit still on the board acts, in initiative order, until one side is gone. */
    method PlayTurns() returns (ghost t: Trace)
      requires Valid()
      modifies this`casualties, this`blows, this`rolls, units
      ensures Valid() && old(casualties) <= casualties && TurnsDone(old(rolls), old(State()), t)
      ensures !Over(old(Views())) ==> !Empty(Views())
    {
      ghost var base, f := rolls, State();
      t := Trace([f], []);
      for k := 0 to |order|
        invariant Valid() && old(casualties) <= casualties
        invariant |t.dice| == k && SoFar(base, f, t)
        invariant !Over(f.us) ==> !Over(Views())
      {
        var over;
        over, t := NextTurn(k, base, f, t);
        if over {
          break;
        }
      }
    }

    method CreditLoneStand()
      requires Distinct()
      modifies units
      ensures State() == LoneStand(old(State()))
    {
      ghost var before := State();
      var us := Views();
      if CountOn(us, Company) == 1 && AnyOn(us, Company) && AnyOn(us, Enemy) {
        var k := FirstOn(us, Company);
        units[k].alone := units[k].alone + 1;
        assert State() == Set(before, k, before.us[k].(alone := before.us[k].alone + 1));
      }
    }

    method Rout(j: nat)
      requires Distinct() && j < |units|
      modifies units[j]
      ensures State() == Fled(old(State()), j)
    {
      ghost var before := State();
      units[j].fled := true;
      assert State() == Fled(before, j);
    }

    method MeltAway()
      requires Distinct()
      modifies units
      ensures State() == MeltAwayUpTo(old(State()), |units|)
    {
      ghost var before := State();
      for j := 0 to |units|
        invariant State() == MeltAwayUpTo(before, j)
      {
        MeltAwayShape(before, j);
        assert State().us[j] == before.us[j];
        if units[j].OnBoard() && units[j].team == Enemy {
          Rout(j);
        }
      }
    }

    method Collapse()
      requires Distinct()
      modifies this`casualties, this`blows, units
      ensures State() == CollapseUpTo(old(State()), |units|)
    {
      ghost var before := State();
      for j := 0 to |units|
        invariant State() == CollapseUpTo(before, j)
      {
        CollapseShape(before, j);
        assert State().us[j] == before.us[j];
        if units[j].OnBoard() {
          Kill(j, None);
        }
      }
    }

    /** The scripted endings, checked at the end of round `rnd`. */
    method CloseRound(rnd: nat) returns (collapsed: bool)
      requires Distinct()
      modifies this`casualties, this`blows, units
      ensures State() == RoundEnd(old(State()), script, rnd)
      ensures collapsed == CollapsesAt(old(State()), script, rnd)
    {
      CreditLoneStand();
      if AttackersBreak(Views(), script, rnd) {
        MeltAway();
      }
      collapsed := false;
      if script.collapseRound != 0 && rnd >= script.collapseRound && !IsOver() {
        Collapse();
        collapsed := true;
      }
    }

    /** One round: the turns, then the scripted endings. */
    method PlayRound(rnd: nat) returns (collapsed: bool, ghost t: Trace)
      requires Valid()
      modifies this`casualties, this`blows, this`rolls, units
      ensures Valid() && old(casualties) <= casualties
      ensures PlayedTurns(board, Starts(), Indices(), t) && rolls == old(rolls) + Flat(t.dice)
      ensures t.fields[0] == old(State())
      ensures State() == RoundEnd(LastField(t), script, rnd) && collapsed == CollapsesAt(LastField(t), script, rnd)
      ensures collapsed ==> Empty(Views())
      ensures !Over(old(Views())) && !collapsed ==> !Empty(Views())
      ensures script.collapseRound != 0 && rnd >= script.collapseRound ==> Over(Views())
    {
      t := PlayTurns();
      ghost var played := State();
      RoundEndEmptyIffCollapse(board, played, script, rnd);
      RoundEndExtends(played, script, rnd);
      collapsed := CloseRound(rnd);
    }

    /** The battle so far, from `f` and with the dice rolled since `base`: one trace for each round
        played. */
    ghost predicate Chronicled(base: seq<int>, f: Field, story: seq<Trace>)
      reads this, units
    {
      && board.Valid() && PlayedRounds(board, Starts(), script, Indices(), f, story)
      && (story != [] ==> story[|story| - 1].fields != [])
      && State() == (if story == [] then f else After(script, story, |story|))
      && rolls == base + AllDice(story)
    }

    /** The next round of the battle. */
    method NextRound(rnd: nat, ghost base: seq<int>, ghost f: Field, ghost story: seq<Trace>)
      returns (collapsed: bool, ghost longer: seq<Trace>)
      requires Valid() && Chronicled(base, f, story) && rnd == |story| + 1 && (story != [] ==> !Over(Views()))
      modifies this`casualties, this`blows, this`rolls, units
      ensures Valid() && old(casualties) <= casualties
      ensures Chronicled(base, f, longer) && |longer| == rnd
      ensures collapsed ==> Empty(Views())
      ensures !Over(old(Views())) && !collapsed ==> !Empty(Views())
      ensures script.collapseRound != 0 && rnd >= script.collapseRound ==> Over(Views())
    {
      ghost var t;
      collapsed, t := PlayRound(rnd);
      longer := story + [t];
      AllPlayedExtended(board, Starts(), Indices(), story, t);
      AllStartRightExtended(script, f, story, t);
      AllDiceExtended(story, t);
      Regroup(base, AllDice(story), Flat(t.dice));
    }

    /** Rounds until a side is gone, or the cap. */
    method Fight() returns (collapsed: bool, ghost story: seq<Trace>)
      requires Valid() && rounds == 0
      modifies this, units
      ensures Valid() && old(casualties) <= casualties
      ensures |story| == rounds && Chronicled(old(rolls), old(State()), story)
      ensures 1 <= rounds <= MAX_ROUNDS
      ensures Over(Views()) || rounds == MAX_ROUNDS
      ensures script.collapseRound != 0 ==> Over(Views()) || MAX_ROUNDS < script.collapseRound
      ensures script.collapseRound != 0 ==> rounds <= Max(1, script.collapseRound)
      ensures !Over(old(Views())) ==> (Empty(Views()) <==> collapsed)
    {
      collapsed, story := false, [];
      ghost var base, f := rolls, State();
      for rnd := 1 to MAX_ROUNDS + 1
        invariant rounds == |story| == rnd - 1
        invariant Valid() && old(casualties) <= casualties && Chronicled(base, f, story)
        invariant rnd == 1 ==> Views() == f.us
        invariant rnd > 1 ==> !Over(Views())
        invariant !collapsed
        invariant rnd > 1 && script.collapseRound != 0 ==> rnd <= script.collapseRound
      {
        rounds := rnd;
        collapsed, story := NextRound(rnd, base, f, story);
        if IsOver() {
          break;
        }
      }
    }

    /** Some unit of the team is alive and has not fled. */
    predicate Stands(team: Team)
      reads units
    {
      exists j :: 0 <= j < |units| && units[j].OnBoard() && units[j].team == team
    }

    lemma StandsIsOn(team: Team)
      ensures Stands(team) <==> AnyOn(Views(), team)
    {
      assert forall j :: 0 <= j < |units| ==> Views()[j] == units[j].View();
      if AnyOn(Views(), team) {
        var j :| 0 <= j < |Views()| && Views()[j].OnBoard() && Views()[j].team == team;
        assert units[j].OnBoard();
      }
      if Stands(team) {
        var j :| 0 <= j < |units| && units[j].OnBoard() && units[j].team == team;
        assert Views()[j].OnBoard();
      }
    }

    /** A whole battle. However the dice fall, it is a course of rounds by the rules under exactly
        those dice; the accounts balance; it ends within 100 rounds; only a battle that runs all of
        them is a draw; it is won exactly when company and no enemy is left on the board, and lost
        exactly when it is the other way round; a collapse due within them rules a draw out and bounds
        the length; and a battle that both sides entered wipes both out exactly when the site collapsed. */
    method Run() returns (r: BattleReport, collapsed: bool, ghost story: seq<Trace>)
      requires Valid() && rounds == 0
      modifies this, units
      ensures Valid()
      ensures |story| == rounds && Chronicled(old(rolls), old(State()), story)
      ensures 1 <= r.rounds == rounds <= MAX_ROUNDS
      ensures r.outcome == Win <==> Stands(Company) && !Stands(Enemy)
      ensures r.outcome == Loss <==> Stands(Enemy) && !Stands(Company)
      ensures r.outcome == Wipe <==> !Stands(Company) && !Stands(Enemy)
      ensures r.outcome == Draw <==> Stands(Company) && Stands(Enemy)
      ensures r.outcome == Draw ==> r.rounds == MAX_ROUNDS
      ensures script.collapseRound != 0 && script.collapseRound <= MAX_ROUNDS ==>
        r.outcome != Draw && r.rounds <= Max(1, script.collapseRound)
      ensures !Over(old(Views())) ==> (r.outcome == Wipe <==> collapsed)
      ensures r.casualties == casualties && r.blows == blows && old(casualties) <= casualties
      ensures forall i :: 0 <= i < |units| ==>
        (Views()[i].uid in r.survivors <==> Views()[i].uid !in r.casualties)
    {
      collapsed, story := Fight();
      StandsIsOn(Company);
      StandsIsOn(Enemy);
      r := BattleReport(OutcomeOf(Views()), rounds, casualties, Survivors(Views()), blows);
      SurvivorsAreNotCasualties(board, State());
    }
  }
}
