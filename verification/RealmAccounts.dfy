/** What a realm tick conserves: every holding, and every coin but those earned and spent. */
module RealmAccounts {
  import opened Common
  import opened Realm

  ghost function Deeds(r: Realm): multiset<Id>
    requires WellFormed(r)
  {
    Holdings(r.houses, r.names)
  }

  ghost function Sum(f: Estate -> int, r: Realm): int
    requires WellFormed(r)
  {
    Total(f, r.houses, r.names)
  }

  function GoldOf(e: Estate): int { e.gold }

  function StrengthOf(e: Estate): int { e.strength }

  /** Influence that was bought: only an ascending house pays for it. */
  function BoughtInfluence(e: Estate): int { if e.ambition == Ascend then e.influence else 0 }

  function WorthOf(e: Estate): int {
    if KnownHoldings(e.holdings) then Worth(e.holdings) else 0
  }

  lemma PutChanges(f: Estate -> int, r: Realm, x: Id, e: Estate)
    requires WellFormed(r) && x in r.names && KnownHoldings(e.holdings)
    ensures WellFormed(Put(r, x, e)) && Sum(f, Put(r, x, e)) == Sum(f, r) - f(r.houses[x]) + f(e)
  {
    TotalOfChange(f, r.houses, r.names, x, e);
  }

  lemma PutKeepsDeeds(r: Realm, x: Id, e: Estate)
    requires WellFormed(r) && x in r.names && e.holdings == r.houses[x].holdings
    ensures WellFormed(Put(r, x, e)) && Deeds(Put(r, x, e)) == Deeds(r)
  {
    HoldingsOfChange(r.houses, r.names, x, e);
    MultisetCancel(Deeds(Put(r, x, e)), Deeds(r), multiset(e.holdings));
  }

  // --- moving one holding ---

  lemma RemoveCounts(s: seq<Id>, p: Id)
    requires p in s
    ensures multiset(Remove(s, p)) == multiset(s) - multiset{p}
    ensures multiset(s) == multiset(Remove(s, p)) + multiset{p}
  {
    var i := IndexOf(s, p);
    assert s == s[..i] + [p] + s[i + 1..];
  }

  lemma DeedsTaken(r: Realm, x: Id, e: Estate, p: Id)
    requires WellFormed(r) && x in r.names && p in r.houses[x].holdings
    requires e.holdings == Remove(r.houses[x].holdings, p)
    ensures WellFormed(Put(r, x, e)) && Deeds(r) == Deeds(Put(r, x, e)) + multiset{p}
  {
    RemoveStaysKnown(r.houses[x].holdings, p);
    var c := multiset(e.holdings);
    assert multiset(r.houses[x].holdings) == c + multiset{p} by { RemoveCounts(r.houses[x].holdings, p); }
    HoldingsOfChange(r.houses, r.names, x, e);
    MultisetMoved(Deeds(Put(r, x, e)), Deeds(r), c, multiset{p});
  }

  lemma DeedsGiven(r: Realm, x: Id, e: Estate, p: Id)
    requires WellFormed(r) && x in r.names && p in HOLDING_VALUE
    requires e.holdings == r.houses[x].holdings + [p]
    ensures WellFormed(Put(r, x, e)) && Deeds(Put(r, x, e)) == Deeds(r) + multiset{p}
  {
    HoldingsOfChange(r.houses, r.names, x, e);
    MultisetMoved(Deeds(r), Deeds(Put(r, x, e)), multiset(r.houses[x].holdings), multiset{p});
  }

  // --- income ---

  lemma WorthIsIncome(e: Estate)
    requires KnownHoldings(e.holdings)
    ensures GoldOf(Income(e)) == GoldOf(e) + WorthOf(e) - StrengthOf(e)
  {}

  /** A house that has not been paid is as it was. */
  lemma {:induction false} EarnedElsewhere(r: Realm, names: seq<Id>, x: Id)
    requires WellFormed(r) && (forall y :: y in names ==> y in r.names) && x in r.names && x !in names
    ensures Earned(r, names).houses[x] == r.houses[x]
  {
    if names != [] { EarnedElsewhere(r, names[..|names| - 1], x); }
  }

  /** Each listed house is paid what its holdings bring, less its upkeep. */
  lemma {:induction false} EarnedBrings(r: Realm, names: seq<Id>)
    requires WellFormed(r) && NoDup(names) && forall y :: y in names ==> y in r.names
    ensures Sum(GoldOf, Earned(r, names))
         == Sum(GoldOf, r) + Total(WorthOf, r.houses, names) - Total(StrengthOf, r.houses, names)
    ensures Sum(StrengthOf, Earned(r, names)) == Sum(StrengthOf, r)
    ensures Sum(BoughtInfluence, Earned(r, names)) == Sum(BoughtInfluence, r)
    ensures Deeds(Earned(r, names)) == Deeds(r)
  {
    if names != [] {
      var init, x := names[..|names| - 1], names[|names| - 1];
      EarnedBrings(r, init);
      EarnedElsewhere(r, init, x);
      var before := Earned(r, init);
      var e := Income(before.houses[x]);
      PutChanges(GoldOf, before, x, e);
      PutChanges(StrengthOf, before, x, e);
      PutChanges(BoughtInfluence, before, x, e);
      PutKeepsDeeds(before, x, e);
      WorthIsIncome(r.houses[x]);
    }
  }

  // --- ambitions ---

  lemma PutTwiceChanges(f: Estate -> int, r: Realm, x: Id, e: Estate, y: Id, b: Estate)
    requires WellFormed(r) && x in r.names && y in r.names && KnownHoldings(e.holdings) && KnownHoldings(b.holdings)
    requires f(e) - f(r.houses[x]) + f(b) - f(Put(r, x, e).houses[y]) == 0
    ensures WellFormed(Put(Put(r, x, e), y, b))
    ensures Sum(f, Put(Put(r, x, e), y, b)) == Sum(f, r)
  {
    PutChanges(f, r, x, e);
    PutChanges(f, Put(r, x, e), y, b);
  }

  lemma TransferKeepsDeeds(r: Realm, x: Id, e: Estate, y: Id, b: Estate, p: Id)
    requires WellFormed(r) && x in r.names && y in r.names && p in r.houses[x].holdings
    requires e.holdings == Remove(r.houses[x].holdings, p)
    requires b.holdings == Put(r, x, e).houses[y].holdings + [p]
    ensures WellFormed(Put(Put(r, x, e), y, b)) && Deeds(Put(Put(r, x, e), y, b)) == Deeds(r)
  {
    DeedsTaken(r, x, e, p);
    DeedsGiven(Put(r, x, e), y, b, p);
  }

  /** A sale is two changes: the seller's and the buyer's. */
  lemma SaleIs(r: Realm, x: Id) returns (e: Estate, b: Estate, p: Id)
    requires WellFormed(r) && x in r.names && Sells(r.houses[x])
    ensures p in r.houses[x].holdings && e.holdings == Remove(r.houses[x].holdings, p)
    ensures KnownHoldings(e.holdings) && KnownHoldings(b.holdings)
    ensures Sold(r, x) == Put(Put(r, x, e), BUYER, b)
    ensures var o := Put(r, x, e).houses[BUYER];
            && b.holdings == o.holdings + [p]
            && e.gold + b.gold == r.houses[x].gold + o.gold
            && e.strength == r.houses[x].strength && b.strength == o.strength
            && BoughtInfluence(e) == BoughtInfluence(r.houses[x]) && BoughtInfluence(b) == BoughtInfluence(o)
  {
    p := Cheapest(r.houses[x].holdings);
    RemoveKnown(r.houses[x], p);
    e := PaidFor(r.houses[x], p);
    b := Buying(Put(r, x, e).houses[BUYER], p);
  }

  ghost predicate SameTotals(r: Realm, s: Realm)
    requires WellFormed(r) && WellFormed(s)
  {
    && Deeds(s) == Deeds(r)
    && Sum(GoldOf, s) == Sum(GoldOf, r)
    && Sum(StrengthOf, s) == Sum(StrengthOf, r)
    && Sum(BoughtInfluence, s) == Sum(BoughtInfluence, r)
  }

  /** A sale moves one holding and its price, and nothing else. */
  lemma SaleConserves(r: Realm, x: Id)
    requires WellFormed(r) && x in r.names && Sells(r.houses[x])
    ensures WellFormed(Sold(r, x)) && SameTotals(r, Sold(r, x))
  {
    var e, b, p := SaleIs(r, x);
    TransferKeepsDeeds(r, x, e, BUYER, b, p);
    PutTwiceChanges(GoldOf, r, x, e, BUYER, b);
    PutTwiceChanges(StrengthOf, r, x, e, BUYER, b);
    PutTwiceChanges(BoughtInfluence, r, x, e, BUYER, b);
  }

  lemma SpentBuys(e: Estate)
    ensures Spent(e).holdings == e.holdings
    ensures GoldOf(Spent(e)) - GoldOf(e)
         == -RECRUIT_COST * (StrengthOf(Spent(e)) - StrengthOf(e) + BoughtInfluence(Spent(e)) - BoughtInfluence(e))
  {}

  /** Gold is spent at the recruiting price on strength and on bought influence, and only so. */
  ghost predicate Accounted(r: Realm, s: Realm)
    requires WellFormed(r) && WellFormed(s)
  {
    && Deeds(s) == Deeds(r)
    && Sum(GoldOf, s) - Sum(GoldOf, r)
       == -RECRUIT_COST * (Sum(StrengthOf, s) - Sum(StrengthOf, r) + Sum(BoughtInfluence, s) - Sum(BoughtInfluence, r))
  }

  lemma ActedAccounted(r: Realm, x: Id)
    requires WellFormed(r) && x in r.names
    ensures WellFormed(Acted(r, x)) && Accounted(r, Acted(r, x))
  {
    ActedWellFormed(r, x);
    if Sells(r.houses[x]) {
      SaleConserves(r, x);
    } else {
      var e := r.houses[x];
      SpentBuys(e);
      PutKeepsDeeds(r, x, Spent(e));
      PutChanges(GoldOf, r, x, Spent(e));
      PutChanges(StrengthOf, r, x, Spent(e));
      PutChanges(BoughtInfluence, r, x, Spent(e));
    }
  }

  lemma {:induction false} AmbitionsAccounted(r: Realm, names: seq<Id>)
    requires WellFormed(r) && forall x :: x in names ==> x in r.names
    ensures Accounted(r, Ambitions(r, names))
  {
    if names != [] {
      AmbitionsAccounted(r, names[..|names| - 1]);
      ActedAccounted(Ambitions(r, names[..|names| - 1]), names[|names| - 1]);
    }
  }

  // --- wars ---

  lemma DeedMoves(r: Realm, lose: Id, win: Id, p: Id)
    requires WellFormed(r) && lose in r.names && win in r.names && p in r.houses[lose].holdings
    ensures WellFormed(Ceded(r, lose, win, p)) && Deeds(Ceded(r, lose, win, p)) == Deeds(r)
    ensures Sum(GoldOf, Ceded(r, lose, win, p)) == Sum(GoldOf, r)
  {
    var e := Without(r.houses[lose], p);
    RemoveKnown(r.houses[lose], p);
    var b := With(Put(r, lose, e).houses[win], p);
    TransferKeepsDeeds(r, lose, e, win, b, p);
    PutTwiceChanges(GoldOf, r, lose, e, win, b);
  }

  lemma BeatenConserves(r: Realm, win: Id, lose: Id)
    requires WellFormed(r) && win in r.names && lose in r.names
    ensures WellFormed(Beaten(r, win, lose)) && Deeds(Beaten(r, win, lose)) == Deeds(r)
    ensures Sum(GoldOf, Beaten(r, win, lose)) == Sum(GoldOf, r)
  {
    var e1 := Weakened(r.houses[win], 1);
    var r1 := Put(r, win, e1);
    PutKeepsDeeds(r, win, e1);
    PutChanges(GoldOf, r, win, e1);
    var e2 := Weakened(r1.houses[lose], 2);
    var r2 := Put(r1, lose, e2);
    PutKeepsDeeds(r1, lose, e2);
    PutChanges(GoldOf, r1, lose, e2);
    if r2.houses[lose].holdings != [] {
      DeedMoves(r2, lose, win, Cheapest(r2.houses[lose].holdings));
    }
  }

  lemma MusterConserves(r: Realm, p: Pair)
    requires WellFormed(r)
    ensures WellFormed(Mustered(r, p)) && Deeds(Mustered(r, p)) == Deeds(r)
    ensures Sum(GoldOf, Mustered(r, p)) == Sum(GoldOf, r)
  {}

  lemma SettledConserves(r: Realm, p: Pair, scores: (int, int))
    requires WellFormed(r) && p.0 in r.names && p.1 in r.names
    ensures WellFormed(Settled(r, p, scores)) && Deeds(Settled(r, p, scores)) == Deeds(r)
    ensures Sum(GoldOf, Settled(r, p, scores)) == Sum(GoldOf, r)
  {
    if scores.0 > scores.1 {
      BeatenConserves(r, p.0, p.1);
    } else if scores.0 < scores.1 {
      BeatenConserves(r, p.1, p.0);
    }
  }

  lemma FoughtConserves(r: Realm, p: Pair, d: Dice)
    requires WellFormed(r) && p.0 in r.names && p.1 in r.names
    ensures WellFormed(Fought(r, p, d)) && Deeds(Fought(r, p, d)) == Deeds(r)
    ensures Sum(GoldOf, Fought(r, p, d)) == Sum(GoldOf, r)
  {
    MusterConserves(r, p);
    SettledConserves(Mustered(r, p), p, Scores(r, p, d));
  }

  lemma {:induction false} WarredConserves(r: Realm, pairs: seq<Pair>, dice: seq<Dice>)
    requires WellFormed(r) && KnownPairs(r, pairs) && |dice| == |pairs|
    ensures Deeds(Warred(r, pairs, dice)) == Deeds(r)
    ensures Sum(GoldOf, Warred(r, pairs, dice)) == Sum(GoldOf, r)
  {
    if pairs != [] {
      var n := |pairs| - 1;
      WarredConserves(r, pairs[..n], dice[..n]);
      assert pairs[n] in pairs;
      FoughtConserves(Warred(r, pairs[..n], dice[..n]), pairs[n], dice[n]);
    }
  }
}
