/** The shadow ledger: houses and wars kept in place, one tick at a time. */
module Ledger {
  import opened Common
  import opened Realm
  import opened RealmRuns
  import WarRules

  class House {
    var strength: int
    var gold: int
    var influence: int
    var holdings: seq<Id>
    const ambition: Ambition

    constructor (e: Estate)
      ensures State() == e
    {
      strength, gold, influence, holdings, ambition := e.strength, e.gold, e.influence, e.holdings, e.ambition;
    }

    function State(): Estate
      reads this
    {
      Estate(strength, gold, influence, holdings, ambition)
    }

    method EarnIncome()
      requires KnownHoldings(holdings)
      modifies this
      ensures State() == Income(old(State()))
    {
      var sum := 0;
      for i := 0 to |holdings|
        invariant sum == Worth(holdings[..i]) && State() == old(State())
      {
        assert holdings[..i + 1][..i] == holdings[..i];
        assert holdings[i] in holdings;
        sum := sum + HOLDING_VALUE[holdings[i]];
      }
      assert holdings[..|holdings|] == holdings;
      gold := gold + sum - UPKEEP * strength;
    }

    method Spend()
      modifies this
      ensures State() == Spent(old(State()))
    {
      if ambition == Expand && gold >= RECRUIT_COST {
        var recruits := gold / RECRUIT_COST;
        strength := strength + recruits;
        gold := gold - recruits * RECRUIT_COST;
      } else if ambition == Ascend && gold >= RECRUIT_COST {
        gold := gold - RECRUIT_COST;
        influence := influence + 1;
      } else if ambition == Convert {
        influence := influence + 1;
      }
    }

    /** `min(holdings, key=(value, name))`. */
    method PickCheapest() returns (p: Id)
      requires holdings != [] && KnownHoldings(holdings)
      ensures p == Cheapest(holdings)
    {
      p := holdings[0];
      for i := 1 to |holdings|
        invariant p in holdings[..i] && p == Cheapest(holdings[..i])
      {
        assert holdings[..i + 1][..i] == holdings[..i];
        if !Cheaper(p, holdings[i]) {
          p := holdings[i];
        }
      }
      assert holdings[..|holdings|] == holdings;
    }

    method GiveUp(p: Id)
      requires p in holdings
      modifies this
      ensures State() == Without(old(State()), p)
    {
      holdings := Remove(holdings, p);
    }

    method TakeOver(p: Id)
      modifies this
      ensures State() == With(old(State()), p)
    {
      holdings := holdings + [p];
    }
  }

  /** One house object for each house of the realm. */
  method BuildHouses(r: Realm) returns (built: map<Id, House>)
    requires WellFormed(r)
    ensures built.Keys == r.houses.Keys && forall x :: x in built ==> fresh(built[x])
    ensures forall x :: x in built ==> built[x].State() == r.houses[x]
    ensures forall x, y :: x in built && y in built && x != y ==> built[x] != built[y]
  {
    built := map[];
    var rest := r.houses.Keys;
    while rest != {}
      invariant rest <= r.houses.Keys && built.Keys == r.houses.Keys - rest
      invariant forall x :: x in built ==> fresh(built[x])
      invariant forall x :: x in built ==> built[x].State() == r.houses[x]
      invariant forall x, y :: x in built && y in built && x != y ==> built[x] != built[y]
      decreases rest
    {
      var x :| x in rest;
      var h := new House(r.houses[x]);
      built, rest := built[x := h], rest - {x};
    }
  }

  class ShadowLedger {
    const names: seq<Id>
    const houses: map<Id, House>
    var day: int
    var tension: map<Pair, int>
    var atWar: set<Pair>
    var unready: map<Id, int>
    var rolls: seq<Dice>

    constructor (r: Realm)
      requires WellFormed(r) && Ascending(r.names) && r.tension == map[] && r.atWar == {} && r.unready == map[]
      ensures Valid() && State() == r && day == 0 && rolls == []
      ensures forall x :: x in houses ==> fresh(houses[x])
    {
      day, tension, atWar, unready, rolls, names := 0, map[], {}, map[], [], r.names;
      var built := BuildHouses(r);
      houses := built;
    }

    /** Different houses are different objects. */
    ghost predicate Apart() {
      forall x, y :: x in houses && y in houses && x != y ==> houses[x] != houses[y]
    }

    function State(): Realm
      reads this, houses.Values
    {
      Realm(names, map x | x in houses :: houses[x].State(), tension, atWar, unready)
    }

    ghost predicate Valid()
      reads this, houses.Values
    {
      Apart() && WellFormed(State())
    }

    /** One house changed and the rest of the realm did not. */
    twostate lemma OnlyChanged(x: Id)
      requires x in houses && Apart()
      requires forall y :: y in houses && y != x ==> houses[y].State() == old(houses[y].State())
      requires tension == old(tension) && atWar == old(atWar) && unready == old(unready)
      ensures State() == Put(old(State()), x, houses[x].State())
    {}

    method AddTension(a: Id, b: Id, amount: int) returns (t: int)
      modifies this`tension
      ensures State() == Tense(old(State()), a, b, amount)
      ensures PairOf(a, b) in tension && t == tension[PairOf(a, b)]
      ensures t == (if PairOf(a, b) in old(tension) then old(tension)[PairOf(a, b)] else 0) + amount
    {
      var p := PairOf(a, b);
      tension := tension[p := (if p in tension then tension[p] else 0) + amount];
      t := tension[p];
    }

    method ResetTension(a: Id, b: Id)
      modifies this`tension
      ensures State() == Relaxed(old(State()), a, b)
    {
      tension := tension[PairOf(a, b) := 0];
    }

    method MakePeace(a: Id, b: Id)
      modifies this`tension, this`atWar
      ensures State() == AtPeace(old(State()), a, b)
      ensures atWar == old(atWar) - {PairOf(a, b)} && tension == old(tension)[PairOf(a, b) := 0]
    {
      atWar := atWar - {PairOf(a, b)};
      ResetTension(a, b);
    }

    method MarkUnready(x: Id, penalty: int)
      modifies this`unready
      ensures State() == Surprised(old(State()), x, penalty)
    {
      unready := unready[x := penalty];
    }

    method PayHouse(x: Id)
      requires Valid() && x in houses
      modifies houses[x]
      ensures State() == Paid(old(State()), x)
    {
      assert State().houses[x] == houses[x].State();
      houses[x].EarnIncome();
      OnlyChanged(x);
    }

    method SpendFor(x: Id)
      requires Valid() && x in houses
      modifies houses[x]
      ensures State() == Put(old(State()), x, Spent(old(State()).houses[x]))
    {
      houses[x].Spend();
      OnlyChanged(x);
    }

    method TakePaid(x: Id, p: Id)
      requires Apart() && x in houses && p in houses[x].holdings && p in HOLDING_VALUE
      modifies houses[x]
      ensures State() == Put(old(State()), x, PaidFor(old(State()).houses[x], p))
    {
      houses[x].GiveUp(p);
      houses[x].gold := houses[x].gold + HOLDING_VALUE[p];
      OnlyChanged(x);
    }

    method GivePaid(x: Id, p: Id)
      requires Apart() && x in houses && p in HOLDING_VALUE
      modifies houses[x]
      ensures State() == Put(old(State()), x, Buying(old(State()).houses[x], p))
    {
      houses[x].TakeOver(p);
      houses[x].gold := houses[x].gold - HOLDING_VALUE[p];
      OnlyChanged(x);
    }

    /** A distress sale to the buyer, who may be the seller. */
    method Sell(x: Id)
      requires Valid() && x in houses && houses[x].holdings != []
      modifies houses[x], houses[BUYER]
      ensures State() == Sold(old(State()), x)
    {
      assert State().houses[x] == houses[x].State();
      var p := houses[x].PickCheapest();
      TakePaid(x, p);
      GivePaid(BUYER, p);
    }

    method PursueAmbition(x: Id)
      requires Valid() && x in houses
      modifies houses[x], houses[BUYER]
      ensures State() == Acted(old(State()), x)
    {
      assert State().houses[x] == houses[x].State();
      if houses[x].ambition == Survive && houses[x].gold < 0 && houses[x].holdings != [] {
        Sell(x);
      } else {
        SpendFor(x);
      }
    }

    method Weaken(x: Id, n: int)
      requires Apart() && x in houses
      modifies houses[x]
      ensures State() == Put(old(State()), x, Weakened(old(State()).houses[x], n))
    {
      houses[x].strength := Floored(houses[x].strength - n);
      OnlyChanged(x);
    }

    method Take(x: Id, p: Id)
      requires Apart() && x in houses && p in houses[x].holdings
      modifies houses[x]
      ensures State() == Put(old(State()), x, Without(old(State()).houses[x], p))
    {
      houses[x].GiveUp(p);
      OnlyChanged(x);
    }

    method Give(x: Id, p: Id)
      requires Apart() && x in houses
      modifies houses[x]
      ensures State() == Put(old(State()), x, With(old(State()).houses[x], p))
    {
      houses[x].TakeOver(p);
      OnlyChanged(x);
    }

    method Bloody(win: Id, lose: Id)
      requires Apart() && win in houses && lose in houses
      modifies houses[win], houses[lose]
      ensures State() == Bloodied(old(State()), win, lose)
    {
      Weaken(win, 1);
      Weaken(lose, 2);
    }

    method Cede(lose: Id, win: Id, p: Id)
      requires Apart() && win in houses && lose in houses && p in houses[lose].holdings
      modifies houses[win], houses[lose]
      ensures State() == Ceded(old(State()), lose, win, p)
    {
      Take(lose, p);
      Give(win, p);
    }

    method Beat(win: Id, lose: Id)
      requires Valid() && win in houses && lose in houses
      modifies houses[win], houses[lose]
      ensures State() == Beaten(old(State()), win, lose)
    {
      Bloody(win, lose);
      BloodiedWellFormed(old(State()), win, lose);
      Plunder(win, lose);
    }

    /** The loser's cheapest holding, if it has any, goes to the winner. */
    method Plunder(win: Id, lose: Id)
      requires Valid() && win in houses && lose in houses
      modifies houses[win], houses[lose]
      ensures var r := old(State());
        State() == if r.houses[lose].holdings == [] then r else Ceded(r, lose, win, Cheapest(r.houses[lose].holdings))
    {
      assert State().houses[lose] == houses[lose].State();
      if houses[lose].holdings != [] {
        var p := houses[lose].PickCheapest();
        Cede(lose, win, p);
      }
    }

    /** A house's unreadiness, used up. */
    method PopUnready(x: Id) returns (penalty: int)
      modifies this`unready
      ensures penalty == Unready(old(State()), x)
      ensures State() == Popped(old(State()), x)
    {
      penalty := if x in unready then unready[x] else 0;
      unready := unready - {x};
    }

    method Roll() returns (d: Dice)
      modifies this`rolls
      ensures rolls == old(rolls) + [d] && 1 <= d.a <= 6 && 1 <= d.b <= 6
    {
      var a: int, b: int :| 1 <= a <= 6 && 1 <= b <= 6;
      d := Dice(a, b);
      rolls := rolls + [d];
    }

    method Muster(p: Pair, d: Dice) returns (rollA: int, rollB: int)
      requires p.0 in houses && p.1 in houses
      modifies this`unready
      ensures (rollA, rollB) == Scores(old(State()), p, d)
      ensures State() == Mustered(old(State()), p)
    {
      assert State().houses[p.0] == houses[p.0].State() && State().houses[p.1] == houses[p.1].State();
      var penalty := PopUnready(p.0);
      rollA := houses[p.0].strength - penalty + d.a * WAR_DIE_SCALE;
      penalty := PopUnready(p.1);
      rollB := houses[p.1].strength - penalty + d.b * WAR_DIE_SCALE;
    }

    method Settle(p: Pair, rollA: int, rollB: int)
      requires Valid() && p.0 in houses && p.1 in houses
      modifies houses[p.0], houses[p.1]
      ensures State() == Settled(old(State()), p, (rollA, rollB))
    {
      if rollA > rollB {
        Beat(p.0, p.1);
      } else if rollB > rollA {
        Beat(p.1, p.0);
      }
    }

    method Fight(p: Pair) returns (d: Dice)
      requires Valid() && p.0 in houses && p.1 in houses
      modifies this`unready, this`rolls, houses[p.0], houses[p.1]
      ensures rolls == old(rolls) + [d] && 1 <= d.a <= 6 && 1 <= d.b <= 6
      ensures State() == Fought(old(State()), p, d)
      ensures p.0 != p.1 ==> WarRules.Battled(old(State()), p, d, State())
    {
      d := Roll();
      ghost var r := State();
      assert r == old(State());
      var rollA, rollB := Muster(p, d);
      assert WellFormed(Mustered(r, p));
      Settle(p, rollA, rollB);
      if p.0 != p.1 { WarRules.FoughtIsBattled(r, p, d); }
    }

    /** The pairs tense enough for war and not yet at it. */
    method NewWars() returns (declared: set<Pair>)
      ensures declared == (set p | p in tension && tension[p] >= WAR_THRESHOLD) - atWar
    {
      declared := {};
      var rest := tension.Keys;
      while rest != {}
        invariant rest <= tension.Keys
        invariant forall p :: p in declared <==> p in tension && p !in rest && tension[p] >= WAR_THRESHOLD && p !in atWar
        decreases |rest|
      {
        var p :| p in rest;
        rest := rest - {p};
        if tension[p] >= WAR_THRESHOLD && p !in atWar {
          declared := declared + {p};
        }
      }
    }

    method DeclareWars() returns (declared: set<Pair>)
      modifies this`atWar
      ensures State() == Declared(old(State()))
      ensures declared == atWar - old(atWar)
    {
      declared := NewWars();
      ghost var hostile := set p | p in tension && tension[p] >= WAR_THRESHOLD;
      assert atWar + declared == atWar + hostile;
      atWar := atWar + declared;
    }

    method PayNext(i: nat, ghost r: Realm)
      requires i < |names| && Apart() && WellFormed(r) && r.names == names && State() == Earned(r, names[..i])
      modifies houses.Values
      ensures State() == Earned(r, names[..i + 1])
    {
      assert names[..i + 1][..i] == names[..i];
      assert names[i] in r.names && State().houses.Keys == houses.Keys;
      PayHouse(names[i]);
    }

    method PursueNext(i: nat, ghost r: Realm)
      requires i < |names| && Apart() && WellFormed(r) && r.names == names && State() == Ambitions(r, names[..i])
      modifies houses.Values
      ensures State() == Ambitions(r, names[..i + 1])
    {
      assert names[..i + 1][..i] == names[..i];
      assert names[i] in r.names && State().houses.Keys == houses.Keys;
      PursueAmbition(names[i]);
    }

    method PayEveryone()
      requires Valid()
      modifies houses.Values
      ensures Valid() && State() == Earned(old(State()), names)
    {
      ghost var r := State();
      assert names[..0] == [];
      for i := 0 to |names|
        invariant Apart() && State() == Earned(r, names[..i])
      {
        PayNext(i, r);
      }
      assert names[..|names|] == names;
    }

    method PursueAmbitions()
      requires Valid()
      modifies houses.Values
      ensures Valid() && State() == Ambitions(old(State()), names)
    {
      ghost var r := State();
      assert names[..0] == [];
      for i := 0 to |names|
        invariant Apart() && State() == Ambitions(r, names[..i])
      {
        PursueNext(i, r);
      }
      assert names[..|names|] == names;
    }

    /** The pair that fights next: the first in order of those still to fight. */
    method NextPair(rest: set<Pair>) returns (p: Pair)
      requires rest != {}
      ensures Least(p, rest)
    {
      ghost var least := LeastExists(rest);
      p :| p in rest && forall q :: q in rest ==> PairLe(p, q);
    }

    method FightNext(p: Pair, ghost r: Realm, ghost all: set<Pair>, ghost rest: set<Pair>,
                     ghost fought: seq<Pair>, ghost dice: seq<Dice>)
      returns (d: Dice)
      requires Apart() && p.0 in houses && p.1 in houses
      requires WellFormed(r) && HalfFought(r, all, rest, fought, dice) && Least(p, rest)
      requires State() == Warred(r, fought, dice)
      modifies this`unready, this`rolls, houses[p.0], houses[p.1]
      ensures rolls == old(rolls) + [d]
      ensures HalfFought(r, all, rest - {p}, fought + [p], dice + [d])
      ensures State() == Warred(r, fought + [p], dice + [d])
    {
      ghost var sofar := State();
      assert sofar.houses.Keys == houses.Keys == r.houses.Keys;
      d := Fight(p);
      WarsGoOn(r, all, rest, fought, dice, p, d);
    }

    method WageWars() returns (fought: seq<Pair>, ghost dice: seq<Dice>)
      requires Valid() && WarriorsKnown(State(), atWar)
      modifies this`unready, this`rolls, houses.Values
      ensures InOrder(fought, atWar) && KnownPairs(old(State()), fought)
      ensures rolls == old(rolls) + dice && |dice| == |fought|
      ensures State() == Warred(old(State()), fought, dice)
    {
      ghost var r, before := State(), rolls;
      fought, dice := [], [];
      var rest := atWar;
      ghost var all := rest;
      while rest != {}
        invariant HalfFought(r, all, rest, fought, dice) && rolls == before + dice
        invariant State() == Warred(r, fought, dice)
        decreases rest
      {
        var p := NextPair(rest);
        assert p in all && r.houses.Keys == houses.Keys;
        var d := FightNext(p, r, all, rest, fought, dice);
        Regroup(before, dice, [d]);
        fought, dice, rest := fought + [p], dice + [d], rest - {p};
      }
      assert rest == {};
    }

    /** The houses are paid, follow their ambitions, and declare their wars. */
    method MakeReady() returns (declared: set<Pair>)
      requires Valid()
      modifies this`atWar, houses.Values
      ensures Valid() && State() == Readied(old(State()))
      ensures declared == atWar - old(atWar)
    {
      ghost var r := State();
      PayEveryone();
      ghost var paid := State();
      PursueAmbitions();
      ghost var acted := State();
      declared := DeclareWars();
      ReadyLanded(r, paid, acted, State());
    }

    method TurnRealm() returns (declared: set<Pair>, fought: seq<Pair>, ghost dice: seq<Dice>)
      requires Valid() && ComingWarsKnown(State())
      modifies this`atWar, this`unready, this`rolls, houses.Values
      ensures rolls == old(rolls) + dice && TicksTo(old(State()), fought, dice, State())
      ensures declared == atWar - old(atWar)
    {
      ghost var r := State();
      declared := MakeReady();
      ghost var readied := State();
      ReadyToFight(r, readied);
      fought, dice := WageWars();
      TickLanded(r, readied, State(), fought, dice);
    }

    method Tick(days: int) returns (declared: set<Pair>, fought: seq<Pair>, ghost dice: seq<Dice>)
      requires Valid() && ComingWarsKnown(State())
      modifies this`day, this`atWar, this`unready, this`rolls, houses.Values
      ensures Valid() && day == old(day) + days && rolls == old(rolls) + dice
      ensures TicksTo(old(State()), fought, dice, State())
      ensures declared == atWar - old(atWar)
    {
      day := day + days;
      assert State() == old(State());
      declared, fought, dice := TurnRealm();
    }
  }
}
