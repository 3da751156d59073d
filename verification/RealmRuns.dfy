/** Whole runs of the realm ledger: ticks and the intrigue between them. */
module RealmRuns {
  import opened Common
  import opened Realm
  import opened RealmAccounts

  /** The realm when its wars are fought: paid, spent, and with its wars declared. */
  ghost function Readied(r: Realm): (s: Realm)
    requires WellFormed(r)
    ensures WellFormed(s) && s.names == r.names && s.houses.Keys == r.houses.Keys
  {
    Declared(Ambitions(Earned(r, r.names), r.names))
  }

  ghost predicate CanTick(r: Realm, pairs: seq<Pair>, dice: seq<Dice>) {
    && WellFormed(r)
    && InOrder(pairs, Readied(r).atWar) && |dice| == |pairs|
    && KnownPairs(Readied(r), pairs)
  }

  ghost function Ticked(r: Realm, pairs: seq<Pair>, dice: seq<Dice>): (s: Realm)
    requires CanTick(r, pairs, dice)
    ensures WellFormed(s) && s.names == r.names && s.houses.Keys == r.houses.Keys
  {
    Warred(Readied(r), pairs, dice)
  }

  lemma ReadyLanded(r: Realm, paid: Realm, acted: Realm, readied: Realm)
    requires WellFormed(r) && paid == Earned(r, r.names) && acted == Ambitions(paid, r.names)
    requires readied == Declared(acted)
    ensures readied == Readied(r)
  {}

  lemma TickLanded(r: Realm, readied: Realm, end: Realm, pairs: seq<Pair>, dice: seq<Dice>)
    requires WellFormed(r) && readied == Readied(r)
    requires InOrder(pairs, readied.atWar) && KnownPairs(readied, pairs) && |dice| == |pairs|
    requires end == Warred(readied, pairs, dice)
    ensures TicksTo(r, pairs, dice, end)
  {}

  /** A tick that may happen, and where it ends. */
  ghost predicate TicksTo(r: Realm, pairs: seq<Pair>, dice: seq<Dice>, end: Realm) {
    CanTick(r, pairs, dice) && end == Ticked(r, pairs, dice)
  }

  /** Who is at war once the wars are declared. */
  lemma ReadiedPolitics(r: Realm, p: Pair)
    requires WellFormed(r)
    ensures p in Readied(r).atWar <==> p in r.atWar || Hostile(r, p)
  {
    EarnedKeepsPolitics(r, r.names);
    AmbitionsKeepPolitics(Earned(r, r.names), r.names);
  }

  ghost predicate WarriorsKnown(r: Realm, pairs: set<Pair>) {
    forall p :: p in pairs ==> p.0 in r.houses && p.1 in r.houses
  }

  /** Everybody the coming wars involve is a house of the realm. */
  ghost predicate ComingWarsKnown(r: Realm) {
    forall p :: p in r.atWar || Hostile(r, p) ==> p.0 in r.houses && p.1 in r.houses
  }

  lemma AllWarriorsKnown(r: Realm)
    requires WellFormed(r) && ComingWarsKnown(r)
    ensures WarriorsKnown(Readied(r), Readied(r).atWar)
  {
    forall p | p in Readied(r).atWar ensures p.0 in r.houses && p.1 in r.houses { ReadiedPolitics(r, p); }
  }

  lemma ReadyToFight(r: Realm, s: Realm)
    requires WellFormed(r) && ComingWarsKnown(r) && s == Readied(r)
    ensures WarriorsKnown(s, s.atWar)
  {
    AllWarriorsKnown(r);
  }

  /** Wars half fought: the pairs fought so far come first, the rest later. */
  ghost predicate HalfFought(r: Realm, all: set<Pair>, rest: set<Pair>, pairs: seq<Pair>, dice: seq<Dice>) {
    && rest <= all && InOrder(pairs, all - rest)
    && (forall p, q :: p in pairs && q in rest ==> PairLe(p, q))
    && KnownPairs(r, pairs) && |dice| == |pairs|
  }

  lemma OrderGoesOn(all: set<Pair>, rest: set<Pair>, pairs: seq<Pair>, p: Pair)
    requires rest <= all && InOrder(pairs, all - rest) && Least(p, rest)
    requires forall q, s :: q in pairs && s in rest ==> PairLe(q, s)
    ensures InOrder(pairs + [p], all - (rest - {p}))
    ensures forall q, s :: q in pairs + [p] && s in rest - {p} ==> PairLe(q, s)
  {
    InOrderExtended(pairs, all - rest, p);
    assert all - rest + {p} == all - (rest - {p});
  }

  lemma WarsGoOn(r: Realm, all: set<Pair>, rest: set<Pair>, pairs: seq<Pair>, dice: seq<Dice>, p: Pair, d: Dice)
    requires WellFormed(r) && HalfFought(r, all, rest, pairs, dice) && Least(p, rest)
    requires p.0 in r.houses && p.1 in r.houses
    ensures HalfFought(r, all, rest - {p}, pairs + [p], dice + [d])
    ensures Warred(r, pairs + [p], dice + [d]) == Fought(Warred(r, pairs, dice), p, d)
  {
    OrderGoesOn(all, rest, pairs, p);
    WarredExtended(r, pairs, dice, p, d);
  }

  function Tense(r: Realm, a: Id, b: Id, amount: int): Realm {
    var p := PairOf(a, b);
    r.(tension := r.tension[p := (if p in r.tension then r.tension[p] else 0) + amount])
  }

  function Relaxed(r: Realm, a: Id, b: Id): Realm {
    r.(tension := r.tension[PairOf(a, b) := 0])
  }

  function AtPeace(r: Realm, a: Id, b: Id): Realm {
    Relaxed(r.(atWar := r.atWar - {PairOf(a, b)}), a, b)
  }

  function Surprised(r: Realm, x: Id, penalty: int): Realm {
    r.(unready := r.unready[x := penalty])
  }

  lemma PairIsSymmetric(a: Id, b: Id)
    ensures PairOf(a, b) == PairOf(b, a)
  {
    StringLeTotal(a, b);
  }

  // --- one tick ---

  /** A tick keeps every holding, and changes the realm's gold by the value of all holdings less
      all prior strength, less the price of what was bought. */
  lemma TickAccounts(r: Realm, pairs: seq<Pair>, dice: seq<Dice>)
    requires CanTick(r, pairs, dice)
    ensures Deeds(Ticked(r, pairs, dice)) == Deeds(r)
    ensures var bought := Sum(StrengthOf, Readied(r)) - Sum(StrengthOf, r)
                          + Sum(BoughtInfluence, Readied(r)) - Sum(BoughtInfluence, r);
            Sum(GoldOf, Ticked(r, pairs, dice))
              == Sum(GoldOf, r) + Sum(WorthOf, r) - Sum(StrengthOf, r) - RECRUIT_COST * bought
  {
    EarnedBrings(r, r.names);
    var paid := Earned(r, r.names);
    AmbitionsAccounted(paid, r.names);
    WarredConserves(Readied(r), pairs, dice);
  }

  // --- strength ---

  ghost predicate NoneNegative(r: Realm) {
    forall x :: x in r.houses ==> r.houses[x].strength >= 0
  }

  lemma {:induction false} EarnedNotNegative(r: Realm, names: seq<Id>)
    requires WellFormed(r) && (forall x :: x in names ==> x in r.names) && NoneNegative(r)
    ensures NoneNegative(Earned(r, names))
  {
    if names != [] { EarnedNotNegative(r, names[..|names| - 1]); }
  }

  lemma {:induction false} AmbitionsNotNegative(r: Realm, names: seq<Id>)
    requires WellFormed(r) && (forall x :: x in names ==> x in r.names) && NoneNegative(r)
    ensures NoneNegative(Ambitions(r, names))
  {
    if names != [] {
      var before := Ambitions(r, names[..|names| - 1]);
      AmbitionsNotNegative(r, names[..|names| - 1]);
      ActedNotNegative(before, names[|names| - 1]);
    }
  }

  lemma ActedNotNegative(r: Realm, x: Id)
    requires WellFormed(r) && x in r.names && NoneNegative(r)
    ensures NoneNegative(Acted(r, x))
  {
    if Sells(r.houses[x]) {
      var e, b, p := SaleIs(r, x);
    }
  }

  lemma BeatenNotNegative(r: Realm, win: Id, lose: Id)
    requires WellFormed(r) && win in r.houses && lose in r.houses && NoneNegative(r)
    ensures NoneNegative(Beaten(r, win, lose))
  {
    assert NoneNegative(Bloodied(r, win, lose));
  }

  lemma FoughtNotNegative(r: Realm, p: Pair, d: Dice)
    requires WellFormed(r) && p.0 in r.houses && p.1 in r.houses && NoneNegative(r)
    ensures NoneNegative(Fought(r, p, d))
  {
    var r2 := Mustered(r, p);
    assert WellFormed(r2) && NoneNegative(r2);
    BeatenNotNegative(r2, p.0, p.1);
    BeatenNotNegative(r2, p.1, p.0);
  }

  lemma {:induction false} WarredNotNegative(r: Realm, pairs: seq<Pair>, dice: seq<Dice>)
    requires WellFormed(r) && KnownPairs(r, pairs) && |dice| == |pairs| && NoneNegative(r)
    ensures NoneNegative(Warred(r, pairs, dice))
  {
    if pairs != [] {
      var n := |pairs| - 1;
      WarredNotNegative(r, pairs[..n], dice[..n]);
      assert pairs[n] in pairs;
      FoughtNotNegative(Warred(r, pairs[..n], dice[..n]), pairs[n], dice[n]);
    }
  }

  // --- wars ---

  lemma {:induction false} EarnedKeepsPolitics(r: Realm, names: seq<Id>)
    requires WellFormed(r) && forall x :: x in names ==> x in r.names
    ensures var s := Earned(r, names); s.tension == r.tension && s.atWar == r.atWar && s.unready == r.unready
  {
    if names != [] { EarnedKeepsPolitics(r, names[..|names| - 1]); }
  }

  lemma {:induction false} AmbitionsKeepPolitics(r: Realm, names: seq<Id>)
    requires WellFormed(r) && forall x :: x in names ==> x in r.names
    ensures var s := Ambitions(r, names); s.tension == r.tension && s.atWar == r.atWar && s.unready == r.unready
  {
    if names != [] { AmbitionsKeepPolitics(r, names[..|names| - 1]); }
  }

  ghost predicate SamePolitics(r: Realm, s: Realm) {
    s.tension == r.tension && s.atWar == r.atWar && s.unready == r.unready
  }

  lemma BeatenKeepsPolitics(r: Realm, win: Id, lose: Id)
    requires WellFormed(r) && win in r.houses && lose in r.houses
    ensures SamePolitics(r, Beaten(r, win, lose))
  {}

  lemma FoughtKeepsPolitics(r: Realm, p: Pair, d: Dice)
    requires WellFormed(r) && p.0 in r.houses && p.1 in r.houses
    ensures var s := Fought(r, p, d);
            && s.tension == r.tension && s.atWar == r.atWar
            && s.unready == r.unready - {p.0, p.1}
  {
    assert r.unready - {p.0} - {p.1} == r.unready - {p.0, p.1};
    assert WellFormed(Mustered(r, p));
    BeatenKeepsPolitics(Mustered(r, p), p.0, p.1);
    BeatenKeepsPolitics(Mustered(r, p), p.1, p.0);
  }

  ghost function Fighters(pairs: seq<Pair>): set<Id> {
    if pairs == [] then {} else Fighters(pairs[..|pairs| - 1]) + {pairs[|pairs| - 1].0, pairs[|pairs| - 1].1}
  }

  lemma TakenAwayTwice(m: map<Id, int>, a: set<Id>, b: set<Id>)
    ensures m - a - b == m - (a + b)
  {}

  lemma {:induction false} WarredKeepsPolitics(r: Realm, pairs: seq<Pair>, dice: seq<Dice>)
    requires WellFormed(r) && KnownPairs(r, pairs) && |dice| == |pairs|
    ensures var s := Warred(r, pairs, dice);
            && s.tension == r.tension && s.atWar == r.atWar
            && s.unready == r.unready - Fighters(pairs)
  {
    if pairs != [] {
      var n := |pairs| - 1;
      WarredKeepsPolitics(r, pairs[..n], dice[..n]);
      assert pairs[n] in pairs;
      FoughtKeepsPolitics(Warred(r, pairs[..n], dice[..n]), pairs[n], dice[n]);
      TakenAwayTwice(r.unready, Fighters(pairs[..n]), {pairs[n].0, pairs[n].1});
    }
  }

  lemma {:induction false} FightersAre(pairs: seq<Pair>, p: Pair)
    requires p in pairs
    ensures p.0 in Fighters(pairs) && p.1 in Fighters(pairs)
  {
    SplitLast(pairs);
    if p in pairs[..|pairs| - 1] { FightersAre(pairs[..|pairs| - 1], p); }
  }

  /** After a tick, the pairs at war are those that were and those whose tension had reached the
      threshold; tension stays; and whoever fought is unready no longer. */
  lemma TickPolitics(r: Realm, pairs: seq<Pair>, dice: seq<Dice>)
    requires CanTick(r, pairs, dice)
    ensures var s := Ticked(r, pairs, dice);
            && s.tension == r.tension
            && (forall p :: p in s.atWar <==> p in r.atWar || Hostile(r, p))
            && (forall p :: p in s.atWar ==> p.0 !in s.unready && p.1 !in s.unready)
  {
    EarnedKeepsPolitics(r, r.names);
    AmbitionsKeepPolitics(Earned(r, r.names), r.names);
    WarredKeepsPolitics(Readied(r), pairs, dice);
    forall p | p in Readied(r).atWar ensures p.0 in Fighters(pairs) && p.1 in Fighters(pairs) {
      FightersAre(pairs, p);
    }
  }

  /** A peace holds through the next tick. */
  lemma PeaceHolds(r: Realm, a: Id, b: Id, pairs: seq<Pair>, dice: seq<Dice>)
    requires CanTick(AtPeace(r, a, b), pairs, dice)
    ensures PairOf(b, a) !in pairs && PairOf(b, a) !in Ticked(AtPeace(r, a, b), pairs, dice).atWar
  {
    PairIsSymmetric(a, b);
    var s := AtPeace(r, a, b);
    TickPolitics(s, pairs, dice);
    EarnedKeepsPolitics(s, s.names);
    AmbitionsKeepPolitics(Earned(s, s.names), s.names);
    assert !Hostile(s, PairOf(a, b));
  }

  /** A reset tension neither brings a war in the next tick nor ends one. */
  lemma ResetKeepsWars(r: Realm, a: Id, b: Id, pairs: seq<Pair>, dice: seq<Dice>)
    requires CanTick(Relaxed(r, a, b), pairs, dice)
    ensures PairOf(b, a) in Ticked(Relaxed(r, a, b), pairs, dice).atWar <==> PairOf(b, a) in r.atWar
  {
    PairIsSymmetric(a, b);
    TickPolitics(Relaxed(r, a, b), pairs, dice);
    assert !Hostile(Relaxed(r, a, b), PairOf(a, b));
  }

  /** What this house of the pair rolls against the other. */
  function ScoreOf(r: Realm, p: Pair, d: Dice, x: Id): int
    requires p.0 in r.houses && p.1 in r.houses
  {
    if x == p.0 then Scores(r, p, d).0 else Scores(r, p, d).1
  }

  /** A house taken by surprise is that much weaker in its next battle, whatever was held against it
      before, and in no other; its enemy is as strong as ever. */
  lemma SurpriseCountsOnce(r: Realm, p: Pair, x: Id, y: Id, penalty: int, d: Dice)
    requires WellFormed(r) && p.0 in r.houses && p.1 in r.houses && x != y && (p == (x, y) || p == (y, x))
    ensures var s := Surprised(r, x, penalty);
      && ScoreOf(s, p, d, x) == ScoreOf(Popped(r, x), p, d, x) - penalty
      && ScoreOf(s, p, d, y) == ScoreOf(r, p, d, y)
      && Unready(Fought(s, p, d), x) == 0
  {
    var s := Surprised(r, x, penalty);
    assert WellFormed(s);
    FoughtKeepsPolitics(s, p, d);
  }

  // --- prices ---

  lemma {:induction false} CheapestIsLeast(holdings: seq<Id>, q: Id)
    requires KnownHoldings(holdings) && q in holdings
    ensures Cheaper(Cheapest(holdings), q)
  {
    var rest, last := holdings[..|holdings| - 1], holdings[|holdings| - 1];
    SplitLast(holdings);
    if |holdings| == 1 {
      StringLeTotal(q, q);
    } else {
      if q in rest { CheapestIsLeast(rest, q); }
      StringLeTotal(Cheapest(rest), last);
      StringLeTotal(q, q);
      if !Cheaper(Cheapest(rest), last) && q in rest {
        CheaperTransitive(last, Cheapest(rest), q);
      }
    }
  }

  lemma CheaperTransitive(p: Id, q: Id, s: Id)
    requires p in HOLDING_VALUE && q in HOLDING_VALUE && s in HOLDING_VALUE
    requires Cheaper(p, q) && Cheaper(q, s)
    ensures Cheaper(p, s)
  {
    if StringLe(p, q) && StringLe(q, s) { StringLeTransitive(p, q, s); }
  }

  // --- owners ---

  lemma {:induction false} DeedsCount(houses: map<Id, Estate>, names: seq<Id>, x: Id, p: Id)
    requires (forall y :: y in names ==> y in houses) && x in names
    ensures Holdings(houses, names)[p] >= multiset(houses[x].holdings)[p]
  {
    SplitLast(names);
    if x in names[..|names| - 1] { DeedsCount(houses, names[..|names| - 1], x, p); }
  }

  lemma {:induction false} TwoOwnersCount(houses: map<Id, Estate>, names: seq<Id>, x: Id, y: Id, p: Id)
    requires (forall z :: z in names ==> z in houses) && x in names && y in names && x != y
    requires p in houses[x].holdings && p in houses[y].holdings
    ensures Holdings(houses, names)[p] >= 2
  {
    var init, last := names[..|names| - 1], names[|names| - 1];
    SplitLast(names);
    if x in init && y in init {
      TwoOwnersCount(houses, init, x, y, p);
    } else if x in init {
      DeedsCount(houses, init, x, p);
    } else {
      DeedsCount(houses, init, y, p);
    }
  }

  ghost predicate OneOwnerEach(r: Realm)
    requires WellFormed(r)
  {
    forall p :: Deeds(r)[p] <= 1
  }

  /** With every holding owned once, no two houses own the same one. */
  lemma NoSharedHoldings(r: Realm, x: Id, y: Id, p: Id)
    requires WellFormed(r) && OneOwnerEach(r) && x in r.houses && y in r.houses && x != y
    requires p in r.houses[x].holdings
    ensures p !in r.houses[y].holdings
  {
    assert Deeds(r)[p] <= 1;
    if p in r.houses[y].holdings { TwoOwnersCount(r.houses, r.names, x, y, p); }
  }

  // --- runs ---

  datatype Op =
    | Tension(a: Id, b: Id, amount: int)
    | Reset(a: Id, b: Id)
    | Peace(a: Id, b: Id)
    | Surprise(x: Id, penalty: int)
    | Tick(pairs: seq<Pair>, dice: seq<Dice>)

  ghost predicate Allowed(r: Realm, op: Op) {
    op.Tick? ==> CanTick(r, op.pairs, op.dice)
  }

  ghost function Step(r: Realm, op: Op): Realm
    requires Allowed(r, op)
  {
    match op
    case Tension(a, b, n) => Tense(r, a, b, n)
    case Reset(a, b) => Relaxed(r, a, b)
    case Peace(a, b) => AtPeace(r, a, b)
    case Surprise(x, n) => Surprised(r, x, n)
    case Tick(pairs, dice) => Ticked(r, pairs, dice)
  }

  ghost predicate IsRun(r: Realm, ops: seq<Op>, end: Realm)
    decreases |ops|
  {
    if ops == [] then end == r
    else Allowed(r, ops[0]) && IsRun(Step(r, ops[0]), ops[1..], end)
  }

  lemma StepConserves(r: Realm, op: Op)
    requires WellFormed(r) && NoneNegative(r) && Allowed(r, op)
    ensures WellFormed(Step(r, op)) && Deeds(Step(r, op)) == Deeds(r) && NoneNegative(Step(r, op))
  {
    if op.Tick? {
      TickAccounts(r, op.pairs, op.dice);
      EarnedNotNegative(r, r.names);
      AmbitionsNotNegative(Earned(r, r.names), r.names);
      assert NoneNegative(Readied(r));
      WarredNotNegative(Readied(r), op.pairs, op.dice);
    }
  }

  /** Over any run the realm's holdings stay the same, none has two owners, and no house's
      strength goes below zero. */
  lemma {:induction false} RunConserves(r: Realm, ops: seq<Op>, end: Realm)
    requires WellFormed(r) && NoneNegative(r) && IsRun(r, ops, end)
    ensures WellFormed(end) && Deeds(end) == Deeds(r) && NoneNegative(end)
    ensures OneOwnerEach(r) ==> OneOwnerEach(end)
    decreases |ops|
  {
    if ops != [] {
      StepConserves(r, ops[0]);
      RunConserves(Step(r, ops[0]), ops[1..], end);
    }
  }

  // --- the realm the game opens with ---

  const OPENING: Realm := Realm(
    ["argent", "ashen", "corvane", "crown", "dellmoor", "vaelric"],
    map["crown" := Estate(6, 30, 10, ["p:capital"], Survive),
        "vaelric" := Estate(8, 20, 6, ["p:border-march"], Expand),
        "corvane" := Estate(5, 60, 5, ["p:saltport", "p:greyfen"], Hoard),
        "dellmoor" := Estate(5, 1, 2, ["p:oldkeep"], Survive),
        "argent" := Estate(1, 120, 7, ["p:silvermines"], Ascend),
        "ashen" := Estate(2, 15, 1, ["p:temple-district"], Convert)],
    map[], {}, map[])

  /** One more house, with holdings nobody has yet. */
  lemma HouseAdded(houses: map<Id, Estate>, names: seq<Id>, x: Id, more: seq<Id>)
    requires (forall y :: y in names ==> y in houses) && x in houses && x !in names && NoDup(names)
    requires more == names + [x]
    ensures NoDup(more) && (forall y :: y in more ==> y in houses)
    ensures Holdings(houses, more) == Holdings(houses, names) + multiset(houses[x].holdings)
  {
    NoDupExtended(names, x);
    assert more[..|more| - 1] == names;
  }

  lemma OpeningPriced()
    ensures forall x :: x in OPENING.houses ==>
              KnownHoldings(OPENING.houses[x].holdings) && OPENING.houses[x].strength >= 0
  {}

  lemma OpeningListed()
    ensures NoDup(OPENING.names) && forall x :: x in OPENING.names ==> x in OPENING.houses
    ensures Holdings(OPENING.houses, OPENING.names)
         == multiset(["p:silvermines"]) + multiset(["p:temple-district"]) + multiset(["p:saltport", "p:greyfen"])
            + multiset(["p:capital"]) + multiset(["p:oldkeep"]) + multiset(["p:border-march"])
  {
    var h := OPENING.houses;
    var n1, n2, n3 := ["argent"], ["argent", "ashen"], ["argent", "ashen", "corvane"];
    var n4, n5 := n3 + ["crown"], n3 + ["crown", "dellmoor"];
    HouseAdded(h, [], "argent", n1);
    HouseAdded(h, n1, "ashen", n2);
    HouseAdded(h, n2, "corvane", n3);
    HouseAdded(h, n3, "crown", n4);
    HouseAdded(h, n4, "dellmoor", n5);
    HouseAdded(h, n5, "vaelric", OPENING.names);
  }

  /** Alphabetical order is decided by the first letter in which two names differ. */
  lemma DecidedAt(a: string, b: string, k: nat)
    requires k < |a| && k < |b| && a[..k] == b[..k] && a[k] < b[k]
    ensures StringLess(a, b)
    decreases k
  {
    if k > 0 {
      assert a[0] == a[..k][0] == b[..k][0] == b[0];
      assert a[1..][..k - 1] == a[..k][1..] && b[1..][..k - 1] == b[..k][1..];
      DecidedAt(a[1..], b[1..], k - 1);
    }
  }

  lemma OneMoreAscends(names: seq<Id>, more: seq<Id>)
    requires names != [] && Ascending(names) && |more| == |names| + 1 && more[..|names|] == names
    requires StringLess(names[|names| - 1], more[|names|])
    ensures Ascending(more)
  {}

  lemma OpeningSorted()
    ensures Ascending(OPENING.names)
  {
    var n := OPENING.names;
    DecidedAt("argent", "ashen", 1);
    DecidedAt("ashen", "corvane", 0);
    DecidedAt("corvane", "crown", 1);
    DecidedAt("crown", "dellmoor", 0);
    DecidedAt("dellmoor", "vaelric", 0);
    OneMoreAscends(n[..1], n[..2]);
    OneMoreAscends(n[..2], n[..3]);
    OneMoreAscends(n[..3], n[..4]);
    OneMoreAscends(n[..4], n[..5]);
    OneMoreAscends(n[..5], n);
  }

  lemma EachOnce(p: Id)
    ensures (multiset(["p:silvermines"]) + multiset(["p:temple-district"]) + multiset(["p:saltport", "p:greyfen"])
             + multiset(["p:capital"]) + multiset(["p:oldkeep"]) + multiset(["p:border-march"]))[p] <= 1
  {
    assert "p:saltport"[2] == 's' && "p:silvermines"[2] == 's' && |"p:saltport"| != |"p:silvermines"|;
  }

  lemma OpeningIsSound()
    ensures WellFormed(OPENING) && Ascending(OPENING.names) && NoneNegative(OPENING) && OneOwnerEach(OPENING)
  {
    OpeningPriced();
    OpeningListed();
    OpeningSorted();
    forall p ensures Holdings(OPENING.houses, OPENING.names)[p] <= 1 { EachOnce(p); }
  }
}
