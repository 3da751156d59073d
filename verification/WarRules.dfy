/** What a tick of the realm comes to, house by house and battle by battle. */
module WarRules {
  import opened Common
  import opened Realm
  import opened RealmAccounts
  import opened RealmRuns

  // --- a battle ---

  /** How strong a house is in its next battle, before the dice. */
  function Readiness(r: Realm, x: Id): int
    requires x in r.houses
  {
    r.houses[x].strength - if x in r.unready then r.unready[x] else 0
  }

  function AtLeastZero(n: int): int {
    if n >= 0 then n else 0
  }

  /** `h` is dearer than `q`, or as dear with a name no smaller. */
  predicate NoCheaper(h: Id, q: Id) {
    && h in HOLDING_VALUE && q in HOLDING_VALUE
    && (HOLDING_VALUE[h] > HOLDING_VALUE[q] || (HOLDING_VALUE[h] == HOLDING_VALUE[q] && StringLe(q, h)))
  }

  predicate NoneCheaper(holdings: seq<Id>, q: Id) {
    forall h :: h in holdings ==> NoCheaper(h, q)
  }

  lemma CheapestIsNoneCheaper(holdings: seq<Id>)
    requires holdings != [] && KnownHoldings(holdings)
    ensures NoneCheaper(holdings, Cheapest(holdings))
  {
    forall h | h in holdings ensures NoCheaper(h, Cheapest(holdings)) { CheapestIsLeast(holdings, h); }
  }

  /** `from` has lost the holding `q`, no cheaper one being among them, and `to` has gained it. */
  predicate HandedOn(q: Id, from: seq<Id>, from': seq<Id>, to: seq<Id>, to': seq<Id>) {
    q in from && NoneCheaper(from, q) && multiset(from') == multiset(from) - multiset{q} && to' == to + [q]
  }

  /** `win` beat `lose`: one point of strength against two, and the loser's cheapest holding. */
  ghost predicate Beat(r: Realm, win: Id, lose: Id, s: Realm)
    requires win in r.houses && lose in r.houses && win in s.houses && lose in s.houses
  {
    var w, w', l, l' := r.houses[win], s.houses[win], r.houses[lose], s.houses[lose];
    && w'.strength == AtLeastZero(w.strength - 1) && l'.strength == AtLeastZero(l.strength - 2)
    && w' == w.(strength := w'.strength, holdings := w'.holdings)
    && l' == l.(strength := l'.strength, holdings := l'.holdings)
    && if l.holdings == [] then w'.holdings == w.holdings && l'.holdings == []
       else exists q :: HandedOn(q, l.holdings, l'.holdings, w.holdings, w'.holdings)
  }

  /** What one battle between two houses changes, whatever it was before: the one whose readiness and
      twice its die are more wins; equal sums change no house; nobody else is touched; and neither
      side is unready any longer. */
  ghost predicate Battled(r: Realm, p: Pair, d: Dice, s: Realm)
    requires p.0 in r.houses && p.1 in r.houses
  {
    var a, b := Readiness(r, p.0) + 2 * d.a, Readiness(r, p.1) + 2 * d.b;
    && s.houses.Keys == r.houses.Keys
    && (a > b ==> Beat(r, p.0, p.1, s)) && (b > a ==> Beat(r, p.1, p.0, s)) && (a == b ==> s.houses == r.houses)
    && (forall x :: x in r.houses && x != p.0 && x != p.1 ==> s.houses[x] == r.houses[x])
    && s == r.(houses := s.houses, unready := r.unready - {p.0, p.1})
  }

  lemma BeatenIsBeat(r: Realm, win: Id, lose: Id)
    requires WellFormed(r) && win in r.houses && lose in r.houses && win != lose
    ensures var s := Beaten(r, win, lose);
      && s.houses.Keys == r.houses.Keys && Beat(r, win, lose, s)
      && (forall x :: x in r.houses && x != win && x != lose ==> s.houses[x] == r.houses[x])
      && s == r.(houses := s.houses)
  {
    var s := Beaten(r, win, lose);
    var holdings := r.houses[lose].holdings;
    if holdings != [] {
      var q := Cheapest(holdings);
      CheapestIsNoneCheaper(holdings);
      RemoveCounts(holdings, q);
      assert HandedOn(q, holdings, s.houses[lose].holdings, r.houses[win].holdings, s.houses[win].holdings);
    }
  }

  lemma MusteredIs(r: Realm, p: Pair, d: Dice)
    requires WellFormed(r) && p.0 in r.houses && p.1 in r.houses && p.0 != p.1
    ensures var m := Mustered(r, p);
      && WellFormed(m) && m == r.(unready := r.unready - {p.0, p.1})
      && Scores(r, p, d) == (Readiness(r, p.0) + 2 * d.a, Readiness(r, p.1) + 2 * d.b)
  {
    assert r.unready - {p.0} - {p.1} == r.unready - {p.0, p.1};
  }

  /** Every battle between two houses is decided so. */
  lemma FoughtIsBattled(r: Realm, p: Pair, d: Dice)
    requires WellFormed(r) && p.0 in r.houses && p.1 in r.houses && p.0 != p.1
    ensures Battled(r, p, d, Fought(r, p, d))
  {
    var m := Mustered(r, p);
    MusteredIs(r, p, d);
    var a, b := Readiness(r, p.0) + 2 * d.a, Readiness(r, p.1) + 2 * d.b;
    if a > b {
      BeatenIsBeat(m, p.0, p.1);
      BeatOnlyHouses(m, r, p.0, p.1, Fought(r, p, d));
    } else if b > a {
      BeatenIsBeat(m, p.1, p.0);
      BeatOnlyHouses(m, r, p.1, p.0, Fought(r, p, d));
    }
  }

  lemma BeatOnlyHouses(m: Realm, r: Realm, win: Id, lose: Id, s: Realm)
    requires m.houses == r.houses && win in r.houses && lose in r.houses && win in s.houses && lose in s.houses
    requires Beat(m, win, lose, s)
    ensures Beat(r, win, lose, s)
  {}

  /** A house at war with itself loses three points, its cheapest holding goes to the end of its own
      list, and its unreadiness counts on one side only. */
  lemma FoughtAgainstItself(r: Realm, x: Id, d: Dice)
    requires WellFormed(r) && x in r.houses
    ensures var s, e := Fought(r, (x, x), d), r.houses[x];
      && x in s.houses && (forall y :: y in r.houses && y != x ==> y in s.houses && s.houses[y] == r.houses[y])
      && (if Readiness(r, x) + 2 * d.a == e.strength + 2 * d.b then s.houses[x] == e
          else s.houses[x].strength == AtLeastZero(AtLeastZero(e.strength - 1) - 2))
      && multiset(s.houses[x].holdings) == multiset(e.holdings)
  {
    var e := r.houses[x];
    if e.holdings != [] { RemoveCounts(e.holdings, Cheapest(e.holdings)); }
  }

  /** A realm for before the first battle and after each. */
  ghost predicate Course(houses: set<Id>, pairs: seq<Pair>, dice: seq<Dice>, course: seq<Realm>) {
    && |course| == |pairs| + 1 && |dice| == |pairs|
    && (forall k :: 0 <= k < |course| ==> course[k].houses.Keys == houses)
    && forall k :: 0 <= k < |pairs| ==> BattledAt(pairs, dice, course, k)
  }

  ghost predicate BattledAt(pairs: seq<Pair>, dice: seq<Dice>, course: seq<Realm>, k: int)
    requires 0 <= k < |pairs| && |course| == |pairs| + 1 && |dice| == |pairs|
  {
    && pairs[k].0 in course[k].houses && pairs[k].1 in course[k].houses
    && Battled(course[k], pairs[k], dice[k], course[k + 1])
  }

  lemma CourseExtended(houses: set<Id>, pairs: seq<Pair>, dice: seq<Dice>, course: seq<Realm>, p: Pair, d: Dice, s: Realm)
    requires Course(houses, pairs, dice, course) && s.houses.Keys == houses && p.0 in houses && p.1 in houses
    requires Battled(course[|pairs|], p, d, s)
    ensures Course(houses, pairs + [p], dice + [d], course + [s])
  {
    var ps, ds, cs := pairs + [p], dice + [d], course + [s];
    forall k | 0 <= k < |ps| ensures BattledAt(ps, ds, cs, k) {
      if k < |pairs| {
        assert BattledAt(pairs, dice, course, k);
        assert cs[k] == course[k] && cs[k + 1] == course[k + 1] && ps[k] == pairs[k] && ds[k] == dice[k];
      }
    }
  }

  /** No house is paired with itself. */
  predicate ApartPairs(pairs: seq<Pair>) {
    pairs == [] || (pairs[|pairs| - 1].0 != pairs[|pairs| - 1].1 && ApartPairs(pairs[..|pairs| - 1]))
  }

  lemma KnownEarlier(r: Realm, pairs: seq<Pair>)
    requires KnownPairs(r, pairs) && pairs != []
    ensures KnownPairs(r, pairs[..|pairs| - 1])
    ensures pairs[|pairs| - 1].0 in r.houses && pairs[|pairs| - 1].1 in r.houses
  {
    assert pairs[|pairs| - 1] in pairs;
    assert forall p :: p in pairs[..|pairs| - 1] ==> p in pairs;
  }

  lemma BattledNext(houses: set<Id>, pairs: seq<Pair>, dice: seq<Dice>, course: seq<Realm>, p: Pair, d: Dice)
    requires Course(houses, pairs, dice, course) && WellFormed(course[|pairs|]) && p.0 in houses && p.1 in houses && p.0 != p.1
    ensures Course(houses, pairs + [p], dice + [d], course + [Fought(course[|pairs|], p, d)])
  {
    var before := course[|pairs|];
    FoughtIsBattled(before, p, d);
    FoughtWellFormed(before, p, d);
    CourseExtended(houses, pairs, dice, course, p, d, Fought(before, p, d));
  }

  /** The wars' battles, one after the other, and where each left the realm. */
  ghost predicate FoughtInTurn(r: Realm, pairs: seq<Pair>, dice: seq<Dice>, course: seq<Realm>, end: Realm) {
    Course(r.houses.Keys, pairs, dice, course) && course[0] == r && course[|pairs|] == end
  }

  lemma NextInTurn(r: Realm, pairs: seq<Pair>, dice: seq<Dice>, course: seq<Realm>, end: Realm, p: Pair, d: Dice)
    requires FoughtInTurn(r, pairs, dice, course, end) && WellFormed(end)
    requires p.0 in r.houses && p.1 in r.houses && p.0 != p.1
    ensures FoughtInTurn(r, pairs + [p], dice + [d], course + [Fought(end, p, d)], Fought(end, p, d))
  {
    BattledNext(r.houses.Keys, pairs, dice, course, p, d);
  }

  /** All the battles of a tick come one after the other, each decided by its own dice. */
  lemma {:induction false} WarsAreBattles(r: Realm, pairs: seq<Pair>, dice: seq<Dice>) returns (course: seq<Realm>)
    requires WellFormed(r) && KnownPairs(r, pairs) && |dice| == |pairs| && ApartPairs(pairs)
    ensures FoughtInTurn(r, pairs, dice, course, Warred(r, pairs, dice))
  {
    if pairs == [] {
      course := [r];
    } else {
      var n := |pairs| - 1;
      KnownEarlier(r, pairs);
      var end := Warred(r, pairs[..n], dice[..n]);
      var init := WarsAreBattles(r, pairs[..n], dice[..n]);
      NextInTurn(r, pairs[..n], dice[..n], init, end, pairs[n], dice[n]);
      course := init + [Fought(end, pairs[n], dice[n])];
      SplitLast(pairs);
      SplitLast(dice);
      WarredExtended(r, pairs[..n], dice[..n], pairs[n], dice[n]);
    }
  }

  // --- income and ambitions ---

  /** The gold a house has after its income, before its ambition. */
  function Purse(e: Estate): int
    requires KnownHoldings(e.holdings)
  {
    e.gold + Worth(e.holdings) - e.strength
  }

  /** What a house that sells nothing makes of its purse: an expanding one turns every ten gold into a
      point of strength and keeps less than ten; an ascending one buys influence for ten if it has
      them; a converting one gains influence for nothing; the others keep it all. */
  predicate Pursued(e: Estate, purse: int, f: Estate) {
    && f.ambition == e.ambition && f.holdings == e.holdings
    && match e.ambition
       case Expand =>
         && f.influence == e.influence && f.strength >= e.strength
         && f.gold + 10 * (f.strength - e.strength) == purse
         && (if purse >= 10 then 0 <= f.gold < 10 else f.gold == purse)
       case Ascend =>
         && f.strength == e.strength
         && if purse >= 10 then f.gold == purse - 10 && f.influence == e.influence + 1
            else f.gold == purse && f.influence == e.influence
       case Convert => f.strength == e.strength && f.gold == purse && f.influence == e.influence + 1
       case Hoard => f == e.(gold := purse)
       case Survive => f == e.(gold := purse)
  }

  lemma SpentIsPursued(e: Estate, purse: int)
    ensures Pursued(e, purse, Spent(e.(gold := purse)))
  {}

  /** A surviving house in debt sells its cheapest holding to the buyer at its price. */
  ghost predicate PawnedFor(e: Estate, purse: int, f: Estate, q: Id) {
    && q in e.holdings && q in HOLDING_VALUE && NoneCheaper(e.holdings, q)
    && multiset(f.holdings) == multiset(e.holdings) - multiset{q}
    && f == e.(gold := purse + HOLDING_VALUE[q], holdings := f.holdings)
  }

  ghost predicate Pawned(e: Estate, purse: int, f: Estate) {
    exists q :: PawnedFor(e, purse, f, q)
  }

  predicate InDebt(e: Estate)
    requires KnownHoldings(e.holdings)
  {
    e.ambition == Survive && Purse(e) < 0 && e.holdings != []
  }

  /** What income and ambition make of a house. */
  ghost predicate TickedHouse(e: Estate, f: Estate)
    requires KnownHoldings(e.holdings)
  {
    if InDebt(e) then Pawned(e, Purse(e), f) else Pursued(e, Purse(e), f)
  }

  lemma SoldIsPawned(e: Estate, purse: int)
    requires KnownHoldings(e.holdings) && e.holdings != []
    ensures PawnedFor(e, purse, PaidFor(e.(gold := purse), Cheapest(e.holdings)), Cheapest(e.holdings))
  {
    CheapestIsNoneCheaper(e.holdings);
    RemoveCounts(e.holdings, Cheapest(e.holdings));
  }

  lemma {:induction false} EarnedOnce(r: Realm, names: seq<Id>, x: Id)
    requires WellFormed(r) && NoDup(names) && (forall y :: y in names ==> y in r.names) && x in r.names
    ensures KnownHoldings(r.houses[x].holdings)
    ensures Earned(r, names).houses[x] == if x in names then r.houses[x].(gold := Purse(r.houses[x])) else r.houses[x]
  {
    if names != [] {
      var init, last := names[..|names| - 1], names[|names| - 1];
      SplitLast(names);
      EarnedOnce(r, init, x);
      EarnedOnce(r, init, last);
    }
  }

  lemma ActedElsewhere(r: Realm, y: Id, x: Id)
    requires WellFormed(r) && y in r.names && x in r.houses && x != y && x != BUYER
    ensures x in Acted(r, y).houses && Acted(r, y).houses[x] == r.houses[x]
  {}

  lemma ActedAlike(r: Realm, s: Realm, x: Id)
    requires WellFormed(r) && WellFormed(s) && x in r.houses && x in s.houses && x != BUYER && r.houses[x] == s.houses[x]
    ensures x in Acted(r, x).houses && x in Acted(s, x).houses && Acted(r, x).houses[x] == Acted(s, x).houses[x]
  {}

  lemma {:induction false} ActedOnce(r: Realm, names: seq<Id>, x: Id)
    requires WellFormed(r) && NoDup(names) && (forall y :: y in names ==> y in r.names) && x in r.names && x != BUYER
    ensures Ambitions(r, names).houses[x] == if x in names then Acted(r, x).houses[x] else r.houses[x]
  {
    if names != [] {
      var init, last := names[..|names| - 1], names[|names| - 1];
      SplitLast(names);
      ActedOnce(r, init, x);
      if last == x { ActedAlike(r, Ambitions(r, init), x); } else { ActedElsewhere(Ambitions(r, init), last, x); }
    }
  }

  lemma ActedIsTicked(r: Realm, e: Estate, x: Id)
    requires WellFormed(r) && x in r.houses && x != BUYER && KnownHoldings(e.holdings) && r.houses[x] == e.(gold := Purse(e))
    ensures x in Acted(r, x).houses && TickedHouse(e, Acted(r, x).houses[x])
  {
    if InDebt(e) {
      SoldIsPawned(e, Purse(e));
    } else {
      SpentIsPursued(e, Purse(e));
    }
  }

  /** Every house but the buyer, whom the others' sales touch as well, when the wars begin. */
  lemma ReadiedHouse(r: Realm, x: Id)
    requires WellFormed(r) && x in r.names && x != BUYER
    ensures x in Readied(r).houses && TickedHouse(r.houses[x], Readied(r).houses[x])
  {
    EarnedOnce(r, r.names, x);
    ActedOnce(Earned(r, r.names), r.names, x);
    ActedIsTicked(Earned(r, r.names), r.houses[x], x);
  }

  /** War is on between exactly the pairs it was on between, and those whose tension has reached five. */
  lemma WarsOn(r: Realm, p: Pair)
    requires WellFormed(r)
    ensures p in Readied(r).atWar <==> p in r.atWar || (p in r.tension && r.tension[p] >= 5)
  {
    ReadiedPolitics(r, p);
  }

  /** What holdings are worth together is what each is worth. */
  lemma {:induction false} WorthAddsUp(holdings: seq<Id>, more: seq<Id>)
    requires KnownHoldings(holdings) && KnownHoldings(more) && KnownHoldings(holdings + more)
    ensures Worth(holdings + more) == Worth(holdings) + Worth(more)
    ensures |more| == 1 ==> Worth(more) == HOLDING_VALUE[more[0]]
  {
    if more == [] {
      assert holdings + more == holdings;
    } else {
      var n := |more| - 1;
      assert (holdings + more)[..|holdings + more| - 1] == holdings + more[..n];
      assert (holdings + more)[|holdings + more| - 1] == more[n];
      assert forall p :: p in more[..n] ==> p in more;
      assert forall p :: p in holdings + more[..n] ==> p in holdings + more;
      WorthAddsUp(holdings, more[..n]);
    }
  }

  /** A whole tick: every house but the buyer is left by its income and its ambition as said above;
      the wars are those that were on and those declared at a tension of five; and the pairs at war
      fight, in order, one battle each. */
  lemma TickIs(r: Realm, pairs: seq<Pair>, dice: seq<Dice>, end: Realm) returns (ready: Realm, course: seq<Realm>)
    requires TicksTo(r, pairs, dice, end) && ApartPairs(pairs)
    ensures ready.houses.Keys == r.houses.Keys && ready.tension == r.tension
    ensures forall x :: x in r.houses && x != BUYER ==>
      KnownHoldings(r.houses[x].holdings) && TickedHouse(r.houses[x], ready.houses[x])
    ensures forall p :: p in ready.atWar <==> p in r.atWar || (p in r.tension && r.tension[p] >= 5)
    ensures NoDup(pairs) && (forall p :: p in pairs <==> p in ready.atWar)
    ensures forall i, j :: 0 <= i < j < |pairs| ==> PairLe(pairs[i], pairs[j])
    ensures FoughtInTurn(ready, pairs, dice, course, end)
  {
    ready := Readied(r);
    forall x | x in r.houses && x != BUYER ensures TickedHouse(r.houses[x], ready.houses[x]) { ReadiedHouse(r, x); }
    forall p ensures p in ready.atWar <==> p in r.atWar || (p in r.tension && r.tension[p] >= 5) { WarsOn(r, p); }
    ReadyTension(r);
    course := WarsAreBattles(ready, pairs, dice);
  }

  lemma ReadyTension(r: Realm)
    requires WellFormed(r)
    ensures Readied(r).tension == r.tension
  {
    EarnedKeepsPolitics(r, r.names);
    AmbitionsKeepPolitics(Earned(r, r.names), r.names);
  }
}
