/** The realm ledger's arithmetic as values: income, ambitions, wars, and what they conserve. */
module Realm {
  import opened Common

  const WAR_THRESHOLD := 5
  const RECRUIT_COST := 10
  const UPKEEP := 1
  const WAR_DIE_SCALE := 2
  const HOLDING_VALUE: map<Id, int> := map[
    "p:capital" := 12, "p:saltport" := 10, "p:silvermines" := 12, "p:border-march" := 6,
    "p:temple-district" := 5, "p:oldkeep" := 4, "p:greyfen" := 3]
  const BUYER: Id := "argent"

  datatype Ambition = Expand | Hoard | Convert | Ascend | Survive

  datatype Estate = Estate(strength: int, gold: int, influence: int, holdings: seq<Id>, ambition: Ambition)

  type Pair = (Id, Id)

  /** `names`: the houses in the order they are taken in, the sorted one in every ledger. */
  datatype Realm = Realm(names: seq<Id>, houses: map<Id, Estate>, tension: map<Pair, int>,
                         atWar: set<Pair>, unready: map<Id, int>)

  function PairOf(a: Id, b: Id): Pair {
    if StringLess(a, b) then (a, b) else (b, a)
  }

  predicate KnownHoldings(holdings: seq<Id>) {
    forall p :: p in holdings ==> p in HOLDING_VALUE
  }

  /** In strictly ascending order. */
  predicate Ascending(names: seq<Id>) {
    |names| <= 1 || (Ascending(names[..|names| - 1]) && StringLess(names[|names| - 2], names[|names| - 1]))
  }

  /** Every house is listed once, every holding has a price, and the buyer exists. */
  ghost predicate WellFormed(r: Realm) {
    && NoDup(r.names)
    && (forall x :: x in r.names <==> x in r.houses)
    && (forall x :: x in r.houses ==> KnownHoldings(r.houses[x].holdings))
    && BUYER in r.houses
  }

  function Worth(holdings: seq<Id>): int
    requires KnownHoldings(holdings)
  {
    if holdings == [] then 0 else Worth(holdings[..|holdings| - 1]) + HOLDING_VALUE[holdings[|holdings| - 1]]
  }

  // --- one house at a time ---

  function Income(e: Estate): Estate
    requires KnownHoldings(e.holdings)
  {
    e.(gold := e.gold + Worth(e.holdings) - UPKEEP * e.strength)
  }

  /** Cheaper first, then by name. */
  predicate Cheaper(p: Id, q: Id)
    requires p in HOLDING_VALUE && q in HOLDING_VALUE
  {
    HOLDING_VALUE[p] < HOLDING_VALUE[q] || (HOLDING_VALUE[p] == HOLDING_VALUE[q] && StringLe(p, q))
  }

  function Cheapest(holdings: seq<Id>): (p: Id)
    requires holdings != [] && KnownHoldings(holdings)
    ensures p in holdings
  {
    if |holdings| == 1 then holdings[0]
    else
      var rest := holdings[..|holdings| - 1];
      var p := Cheapest(rest);
      if Cheaper(p, holdings[|holdings| - 1]) then p else holdings[|holdings| - 1]
  }

  function Without(e: Estate, p: Id): Estate
    requires p in e.holdings
  {
    e.(holdings := Remove(e.holdings, p))
  }

  function With(e: Estate, p: Id): Estate {
    e.(holdings := e.holdings + [p])
  }

  function PaidFor(e: Estate, p: Id): Estate
    requires p in e.holdings && p in HOLDING_VALUE
  {
    Without(e, p).(gold := e.gold + HOLDING_VALUE[p])
  }

  function Buying(e: Estate, p: Id): Estate
    requires p in HOLDING_VALUE
  {
    With(e, p).(gold := e.gold - HOLDING_VALUE[p])
  }

  predicate Sells(e: Estate) {
    e.ambition == Survive && e.gold < 0 && e.holdings != []
  }

  /** What a house spends its gold on; a sale is the realm's business. */
  function Spent(e: Estate): Estate {
    if e.ambition == Expand && e.gold >= RECRUIT_COST then
      e.(strength := e.strength + e.gold / RECRUIT_COST, gold := e.gold - e.gold / RECRUIT_COST * RECRUIT_COST)
    else if e.ambition == Ascend && e.gold >= RECRUIT_COST then
      e.(gold := e.gold - RECRUIT_COST, influence := e.influence + 1)
    else if e.ambition == Convert then
      e.(influence := e.influence + 1)
    else e
  }

  // --- the realm ---

  function Put(r: Realm, x: Id, e: Estate): Realm {
    r.(houses := r.houses[x := e])
  }

  /** The seller's cheapest holding goes to the buyer at its price. */
  function Sold(r: Realm, x: Id): Realm
    requires x in r.houses && BUYER in r.houses && KnownHoldings(r.houses[x].holdings) && r.houses[x].holdings != []
  {
    var p := Cheapest(r.houses[x].holdings);
    var r' := Put(r, x, PaidFor(r.houses[x], p));
    Put(r', BUYER, Buying(r'.houses[BUYER], p))
  }

  function Acted(r: Realm, x: Id): Realm
    requires x in r.houses && BUYER in r.houses && KnownHoldings(r.houses[x].holdings)
  {
    if Sells(r.houses[x]) then Sold(r, x) else Put(r, x, Spent(r.houses[x]))
  }

  function Paid(r: Realm, x: Id): Realm
    requires x in r.houses && KnownHoldings(r.houses[x].holdings)
  {
    Put(r, x, Income(r.houses[x]))
  }

  ghost function Earned(r: Realm, names: seq<Id>): (s: Realm)
    requires WellFormed(r) && forall x :: x in names ==> x in r.names
    ensures WellFormed(s) && s.names == r.names && s.houses.Keys == r.houses.Keys
  {
    if names == [] then r
    else
      var before := Earned(r, names[..|names| - 1]);
      var x := names[|names| - 1];
      Paid(before, x)
  }

  ghost function Ambitions(r: Realm, names: seq<Id>): (s: Realm)
    requires WellFormed(r) && forall x :: x in names ==> x in r.names
    ensures WellFormed(s) && s.names == r.names && s.houses.Keys == r.houses.Keys
  {
    if names == [] then r
    else
      var before := Ambitions(r, names[..|names| - 1]);
      ActedWellFormed(before, names[|names| - 1]);
      Acted(before, names[|names| - 1])
  }

  lemma RemoveStaysKnown(holdings: seq<Id>, p: Id)
    requires p in holdings && KnownHoldings(holdings)
    ensures KnownHoldings(Remove(holdings, p))
  {
    var i := IndexOf(holdings, p);
    assert Remove(holdings, p) == holdings[..i] + holdings[i + 1..];
  }

  lemma RemoveKnown(e: Estate, p: Id)
    requires p in e.holdings && KnownHoldings(e.holdings)
    ensures KnownHoldings(Without(e, p).holdings)
  {
    RemoveStaysKnown(e.holdings, p);
  }

  lemma ActedWellFormed(r: Realm, x: Id)
    requires WellFormed(r) && x in r.names
    ensures WellFormed(Acted(r, x)) && Acted(r, x).names == r.names && Acted(r, x).houses.Keys == r.houses.Keys
  {
    if Sells(r.houses[x]) { RemoveKnown(r.houses[x], Cheapest(r.houses[x].holdings)); }
  }

  predicate Hostile(r: Realm, p: Pair) {
    p in r.tension && r.tension[p] >= WAR_THRESHOLD
  }

  function Declared(r: Realm): Realm {
    r.(atWar := r.atWar + set p | p in r.tension && r.tension[p] >= WAR_THRESHOLD)
  }

  function Unready(r: Realm, x: Id): int {
    if x in r.unready then r.unready[x] else 0
  }

  function Floored(n: int): int {
    if n < 0 then 0 else n
  }

  function Weakened(e: Estate, n: int): Estate {
    e.(strength := Floored(e.strength - n))
  }

  /** Both lose strength, the loser more, and either may be the same house. */
  function Bloodied(r: Realm, win: Id, lose: Id): Realm
    requires win in r.houses && lose in r.houses
  {
    var r' := Put(r, win, Weakened(r.houses[win], 1));
    Put(r', lose, Weakened(r'.houses[lose], 2))
  }

  function Ceded(r: Realm, lose: Id, win: Id, p: Id): Realm
    requires lose in r.houses && win in r.houses && p in r.houses[lose].holdings
  {
    var r' := Put(r, lose, Without(r.houses[lose], p));
    Put(r', win, With(r'.houses[win], p))
  }

  /** And the loser's cheapest holding goes to the winner. */
  function Beaten(r: Realm, win: Id, lose: Id): Realm
    requires win in r.houses && lose in r.houses && KnownHoldings(r.houses[lose].holdings)
  {
    var r' := Bloodied(r, win, lose);
    if r'.houses[lose].holdings == [] then r'
    else Ceded(r', lose, win, Cheapest(r'.houses[lose].holdings))
  }

  datatype Dice = Dice(a: int, b: int)

  function Popped(r: Realm, x: Id): Realm {
    r.(unready := r.unready - {x})
  }

  /** What the two sides roll. A house fighting itself is unready only on the first count. */
  function Scores(r: Realm, p: Pair, d: Dice): (int, int)
    requires p.0 in r.houses && p.1 in r.houses
  {
    (r.houses[p.0].strength - Unready(r, p.0) + d.a * WAR_DIE_SCALE,
     r.houses[p.1].strength - Unready(Popped(r, p.0), p.1) + d.b * WAR_DIE_SCALE)
  }

  function Mustered(r: Realm, p: Pair): Realm {
    Popped(Popped(r, p.0), p.1)
  }

  /** Equal scores settle nothing. */
  function Settled(r: Realm, p: Pair, scores: (int, int)): Realm
    requires p.0 in r.houses && p.1 in r.houses
    requires forall x :: x in r.houses ==> KnownHoldings(r.houses[x].holdings)
  {
    if scores.0 == scores.1 then r
    else if scores.0 > scores.1 then Beaten(r, p.0, p.1)
    else Beaten(r, p.1, p.0)
  }

  /** One battle of a warring pair. */
  function Fought(r: Realm, p: Pair, d: Dice): Realm
    requires p.0 in r.houses && p.1 in r.houses
    requires forall x :: x in r.houses ==> KnownHoldings(r.houses[x].holdings)
  {
    Settled(Mustered(r, p), p, Scores(r, p, d))
  }

  ghost predicate KnownPairs(r: Realm, pairs: seq<Pair>) {
    forall p :: p in pairs ==> p.0 in r.houses && p.1 in r.houses
  }

  lemma BloodiedWellFormed(r: Realm, win: Id, lose: Id)
    requires WellFormed(r) && win in r.houses && lose in r.houses
    ensures WellFormed(Bloodied(r, win, lose))
    ensures Bloodied(r, win, lose).names == r.names && Bloodied(r, win, lose).houses.Keys == r.houses.Keys
  {}

  lemma CededWellFormed(r: Realm, lose: Id, win: Id, p: Id)
    requires WellFormed(r) && win in r.houses && lose in r.houses && p in r.houses[lose].holdings
    ensures WellFormed(Ceded(r, lose, win, p))
    ensures Ceded(r, lose, win, p).names == r.names && Ceded(r, lose, win, p).houses.Keys == r.houses.Keys
  {
    RemoveKnown(r.houses[lose], p);
    assert WellFormed(Put(r, lose, Without(r.houses[lose], p)));
  }

  lemma BeatenWellFormed(r: Realm, win: Id, lose: Id)
    requires WellFormed(r) && win in r.houses && lose in r.houses
    ensures WellFormed(Beaten(r, win, lose))
    ensures Beaten(r, win, lose).names == r.names && Beaten(r, win, lose).houses.Keys == r.houses.Keys
  {
    BloodiedWellFormed(r, win, lose);
    var r' := Bloodied(r, win, lose);
    if r'.houses[lose].holdings != [] {
      CededWellFormed(r', lose, win, Cheapest(r'.houses[lose].holdings));
    }
  }

  lemma FoughtWellFormed(r: Realm, p: Pair, d: Dice)
    requires WellFormed(r) && p.0 in r.houses && p.1 in r.houses
    ensures WellFormed(Fought(r, p, d))
    ensures Fought(r, p, d).names == r.names && Fought(r, p, d).houses.Keys == r.houses.Keys
  {
    var r2 := Mustered(r, p);
    assert WellFormed(r2);
    BeatenWellFormed(r2, p.0, p.1);
    BeatenWellFormed(r2, p.1, p.0);
  }

  ghost function Warred(r: Realm, pairs: seq<Pair>, dice: seq<Dice>): (s: Realm)
    requires WellFormed(r) && KnownPairs(r, pairs) && |dice| == |pairs|
    ensures WellFormed(s) && s.names == r.names && s.houses.Keys == r.houses.Keys
  {
    if pairs == [] then r
    else
      var n := |pairs| - 1;
      var before := Warred(r, pairs[..n], dice[..n]);
      assert pairs[n] in pairs;
      FoughtWellFormed(before, pairs[n], dice[n]);
      Fought(before, pairs[n], dice[n])
  }

  /** The order warring pairs fight in. */
  predicate PairLe(p: Pair, q: Pair) {
    (p.0 != q.0 && StringLe(p.0, q.0)) || (p.0 == q.0 && StringLe(p.1, q.1))
  }

  ghost predicate InOrder(pairs: seq<Pair>, s: set<Pair>) {
    && NoDup(pairs)
    && (forall p :: p in pairs <==> p in s)
    && forall i, j :: 0 <= i < j < |pairs| ==> PairLe(pairs[i], pairs[j])
  }

  lemma PairLeTotal(p: Pair, q: Pair)
    ensures PairLe(p, q) || PairLe(q, p)
  {
    StringLeTotal(p.0, q.0);
    StringLeTotal(p.1, q.1);
  }

  lemma PairLeTransitive(p: Pair, q: Pair, s: Pair)
    requires PairLe(p, q) && PairLe(q, s)
    ensures PairLe(p, s)
  {
    StringLeTotal(p.0, q.0);
    StringLeTotal(q.0, s.0);
    if StringLe(p.0, q.0) && StringLe(q.0, s.0) { StringLeTransitive(p.0, q.0, s.0); }
    if StringLe(p.1, q.1) && StringLe(q.1, s.1) { StringLeTransitive(p.1, q.1, s.1); }
  }

  ghost predicate Least(p: Pair, rest: set<Pair>) {
    p in rest && forall q :: q in rest ==> PairLe(p, q)
  }

  lemma {:induction false} LeastExists(rest: set<Pair>) returns (p: Pair)
    requires rest != {}
    ensures Least(p, rest)
    decreases |rest|
  {
    var q :| q in rest;
    PairLeTotal(q, q);
    if rest == {q} {
      p := q;
    } else {
      var least := LeastExists(rest - {q});
      PairLeTotal(least, q);
      p := if PairLe(q, least) then q else least;
      forall s | s in rest ensures PairLe(p, s) {
        if s != q && PairLe(q, least) { PairLeTransitive(q, least, s); }
      }
    }
  }

  lemma InOrderExtended(pairs: seq<Pair>, done: set<Pair>, p: Pair)
    requires InOrder(pairs, done) && p !in done && forall q :: q in pairs ==> PairLe(q, p)
    ensures InOrder(pairs + [p], done + {p})
  {
    assert (pairs + [p])[..|pairs|] == pairs;
  }

  lemma WarredExtended(r: Realm, pairs: seq<Pair>, dice: seq<Dice>, p: Pair, d: Dice)
    requires WellFormed(r) && KnownPairs(r, pairs) && |dice| == |pairs| && p.0 in r.houses && p.1 in r.houses
    ensures KnownPairs(r, pairs + [p])
    ensures Warred(r, pairs + [p], dice + [d]) == Fought(Warred(r, pairs, dice), p, d)
  {
    assert (pairs + [p])[..|pairs|] == pairs && (dice + [d])[..|dice|] == dice;
  }

  // --- totals ---

  ghost function Total(f: Estate -> int, houses: map<Id, Estate>, names: seq<Id>): int
    requires forall x :: x in names ==> x in houses
  {
    if names == [] then 0
    else Total(f, houses, names[..|names| - 1]) + f(houses[names[|names| - 1]])
  }

  lemma {:induction false} TotalElsewhere(f: Estate -> int, houses: map<Id, Estate>, names: seq<Id>, x: Id, e: Estate)
    requires (forall y :: y in names ==> y in houses) && x !in names
    ensures Total(f, houses[x := e], names) == Total(f, houses, names)
  {
    if names != [] { TotalElsewhere(f, houses, names[..|names| - 1], x, e); }
  }

  lemma {:induction false} TotalOfChange(f: Estate -> int, houses: map<Id, Estate>, names: seq<Id>, x: Id, e: Estate)
    requires (forall y :: y in names ==> y in houses) && NoDup(names) && x in names
    ensures Total(f, houses[x := e], names) == Total(f, houses, names) - f(houses[x]) + f(e)
  {
    var init := names[..|names| - 1];
    SplitLast(names);
    if x in init {
      TotalOfChange(f, houses, init, x, e);
    } else {
      TotalElsewhere(f, houses, init, x, e);
    }
  }

  /** Every holding of the realm, as often as it is owned. */
  ghost function Holdings(houses: map<Id, Estate>, names: seq<Id>): multiset<Id>
    requires forall x :: x in names ==> x in houses
  {
    if names == [] then multiset{}
    else Holdings(houses, names[..|names| - 1]) + multiset(houses[names[|names| - 1]].holdings)
  }

  lemma {:induction false} HoldingsElsewhere(houses: map<Id, Estate>, names: seq<Id>, x: Id, e: Estate)
    requires (forall y :: y in names ==> y in houses) && x !in names
    ensures Holdings(houses[x := e], names) == Holdings(houses, names)
  {
    if names != [] { HoldingsElsewhere(houses, names[..|names| - 1], x, e); }
  }

  lemma {:induction false} HoldingsOfChange(houses: map<Id, Estate>, names: seq<Id>, x: Id, e: Estate)
    requires (forall y :: y in names ==> y in houses) && NoDup(names) && x in names
    ensures Holdings(houses[x := e], names) + multiset(houses[x].holdings)
         == Holdings(houses, names) + multiset(e.holdings)
  {
    var init := names[..|names| - 1];
    SplitLast(names);
    if x in init {
      HoldingsOfChange(houses, init, x, e);
      var rest := multiset(houses[names[|names| - 1]].holdings);
      MultisetShift(Holdings(houses[x := e], init), Holdings(houses, init),
                    multiset(houses[x].holdings), multiset(e.holdings), rest);
    } else {
      HoldingsElsewhere(houses, init, x, e);
    }
  }
}
