/** Re-reporting an outcome: distilled again, against the world it produced, it changes nothing. */
module Replay {
  import opened Common
  import opened Rumors
  import opened Outcomes

  // --- what events cannot change ---

  ghost predicate SameCast(w: World, v: World) {
    && w.actors.Keys == v.actors.Keys
    && (forall a :: a in w.actors ==> w.actors[a].name == v.actors[a].name && w.actors[a].tier == v.actors[a].tier)
    && w.pcs == v.pcs && w.byName == v.byName && w.knows == v.knows && w.items.Keys == v.items.Keys
  }

  lemma EventKeepsCast(w: World, e: Event)
    ensures SameCast(w, Apply(w, e))
  {
    match e {
      case ClaimRecorded(_, _) =>
      case BeliefChanged(_, _) =>
      case ActorDied(a) => assert a in w.actors ==> Apply(w, e).actors.Keys == w.actors.Keys;
      case ItemTransferred(i, _, _) => assert i in w.items ==> Apply(w, e).items.Keys == w.items.Keys;
    }
  }

  lemma SameCastTransitive(u: World, v: World, w: World)
    requires SameCast(u, v) && SameCast(v, w)
    ensures SameCast(u, w)
  {}

  lemma {:induction false} EventsKeepCast(w: World, es: seq<Event>)
    ensures SameCast(w, ApplyAll(w, es))
  {
    if es != [] {
      var v := ApplyAll(w, es[..|es| - 1]);
      EventsKeepCast(w, es[..|es| - 1]);
      EventKeepsCast(v, es[|es| - 1]);
      SameCastTransitive(w, v, Apply(v, es[|es| - 1]));
    }
  }

  lemma {:induction false} SameCastTestifies(w: World, v: World, b: Bundle, tier: Tier, n: nat)
    requires SameCast(w, v) && n <= |b.witnesses|
    ensures Testifying(w, b, tier, n) == Testifying(v, b, tier, n)
    ensures WitnessEntries(w, b, tier, n) == WitnessEntries(v, b, tier, n)
  {
    if n > 0 { SameCastTestifies(w, v, b, tier, n - 1); }
  }

  /** Feats are read off the cast alone, so a second report of them says the same. */
  lemma {:induction false} SameCastSameFeats(w: World, v: World, b: Bundle, tier: Tier, n: nat)
    requires SameCast(w, v) && n <= |b.feats|
    ensures Feats(w, b, tier, n) == Feats(v, b, tier, n)
  {
    if n > 0 {
      SameCastSameFeats(w, v, b, tier, n - 1);
      SameCastTestifies(w, v, b, tier, |b.witnesses|);
    }
  }

  // --- what events do change ---

  lemma DeadAfterOne(w: World, e: Event, a: Id)
    requires a in w.actors
    ensures a in Apply(w, e).actors
    ensures Apply(w, e).actors[a].dead <==> w.actors[a].dead || e == ActorDied(a)
  {}

  lemma {:induction false} DeadAfter(w: World, es: seq<Event>, a: Id)
    requires a in w.actors
    ensures a in ApplyAll(w, es).actors
    ensures ApplyAll(w, es).actors[a].dead <==> w.actors[a].dead || ActorDied(a) in es
  {
    if es != [] {
      DeadAfter(w, es[..|es| - 1], a);
      SplitLast(es);
      DeadAfterOne(ApplyAll(w, es[..|es| - 1]), es[|es| - 1], a);
    }
  }

  predicate SameBelief(e: Event, f: Event) {
    e.BeliefChanged? && f.BeliefChanged? && e.id == f.id && e.hearing.actor == f.hearing.actor
  }

  /** Two events that write the same claim, or the same belief, write the same thing. */
  ghost predicate Agreeing(es: seq<Event>) {
    && (forall e, f :: e in es && f in es && e.ClaimRecorded? && f.ClaimRecorded? && e.id == f.id ==> e.claim == f.claim)
    && (forall e, f :: e in es && f in es && SameBelief(e, f) ==> e.hearing == f.hearing)
  }

  /** `e` is already in force. */
  ghost predicate InForce(w: World, e: Event) {
    Apply(w, e) == w
  }

  lemma RecordedThenInForce(w: World, e: Event)
    requires e.ClaimRecorded? || e.BeliefChanged?
    ensures InForce(Apply(w, e), e)
  {
    match e {
      case ClaimRecorded(id, claim) =>
        assert w.claims[id := claim][id := claim] == w.claims[id := claim];
      case BeliefChanged(id, h) =>
        assert w.beliefs[(h.actor, id) := h][(h.actor, id) := h] == w.beliefs[(h.actor, id) := h];
    }
  }

  lemma StaysInForce(w: World, e: Event, f: Event)
    requires InForce(w, e) && (e.ClaimRecorded? || e.BeliefChanged?) && Agreeing([e, f])
    ensures InForce(Apply(w, f), e)
  {
    var v := Apply(w, f);
    match e {
      case ClaimRecorded(id, claim) =>
        assert w.claims[id := claim] == w.claims;
        assert id in w.claims && w.claims[id] == claim;
        if f.ClaimRecorded? && f.id == id { assert e in [e, f] && f in [e, f]; }
        assert v.claims[id := claim] == v.claims;
      case BeliefChanged(id, h) =>
        assert w.beliefs[(h.actor, id) := h] == w.beliefs;
        assert (h.actor, id) in w.beliefs && w.beliefs[(h.actor, id)] == h;
        if f.BeliefChanged? && f.id == id && f.hearing.actor == h.actor { assert e in [e, f] && f in [e, f]; }
        assert v.beliefs[(h.actor, id) := h] == v.beliefs;
    }
  }

  /** What agreeing events record is in force once they are all applied. */
  lemma {:induction false} RecordsAreInForce(w: World, es: seq<Event>, e: Event)
    requires Agreeing(es) && e in es && (e.ClaimRecorded? || e.BeliefChanged?)
    ensures InForce(ApplyAll(w, es), e)
  {
    var front, last := es[..|es| - 1], es[|es| - 1];
    assert es == front + [last];
    if e == last {
      RecordedThenInForce(ApplyAll(w, front), e);
    } else {
      assert Agreeing(front);
      RecordsAreInForce(w, front, e);
      assert Agreeing([e, last]);
      StaysInForce(ApplyAll(w, front), e, last);
    }
  }

  lemma {:induction false} NothingLeftToDo(w: World, es: seq<Event>)
    requires forall e :: e in es ==> InForce(w, e)
    ensures ApplyAll(w, es) == w
  {
    if es != [] {
      var front, last := es[..|es| - 1], es[|es| - 1];
      assert es == front + [last] && last in es;
      assert forall e :: e in front ==> e in es;
      NothingLeftToDo(w, front);
      assert InForce(w, last);
    }
  }

  // --- what a distillation may contain ---

  lemma {:induction false} BeliefsMembers(id: ClaimId, heard: seq<Hearing>, e: Event)
    ensures e in Beliefs(id, heard) <==> e.BeliefChanged? && e.id == id && e.hearing in heard
  {
    if heard != [] {
      BeliefsMembers(id, heard[..|heard| - 1], e);
      assert heard == heard[..|heard| - 1] + [heard[|heard| - 1]];
    }
  }

  /** A feat's events: its claim, and beliefs in it from the one cascade. */
  lemma {:induction false} FeatsMembers(w: World, b: Bundle, tier: Tier, n: nat, e: Event)
    requires n <= |b.feats| && e in Feats(w, b, tier, n).events
    ensures e.ClaimRecorded? || e.BeliefChanged?
    ensures e.id.FeatClaim? && e.id.index < n
    ensures e.ClaimRecorded? ==>
      Resolve(w, b.feats[e.id.index].actor).Some? && e == FeatClaimFor(b, e.id.index, Resolve(w, b.feats[e.id.index].actor).value)
    ensures e.BeliefChanged? ==> e.hearing in Cascade(w.knows, Testifying(w, b, tier, |b.witnesses|))
  {
    if e in Feats(w, b, tier, n - 1).events {
      FeatsMembers(w, b, tier, n - 1, e);
    } else {
      var id := FeatClaim(b.encounter, n - 1);
      BeliefsMembers(id, Cascade(w.knows, Testifying(w, b, tier, |b.witnesses|)), e);
    }
  }

  lemma {:induction false} CasualtiesMembers(w: World, b: Bundle, tier: Tier, n: nat, e: Event)
    requires n <= |b.casualties| && e in Casualties(w, b, tier, n).events
    ensures e.ActorDied? || (e.ClaimRecorded? && e.id.FellClaim?)
    ensures var c := if e.ActorDied? then e.actor else e.id.casualty;
      c in b.casualties[..n] && e in CasualtyPart(w, b, tier, c).events
  {
    var c := b.casualties[n - 1];
    assert b.casualties[..n] == b.casualties[..n - 1] + [c];
    if e in Casualties(w, b, tier, n - 1).events {
      CasualtiesMembers(w, b, tier, n - 1, e);
    }
  }

  lemma {:induction false} CasualtiesContain(w: World, b: Bundle, tier: Tier, n: nat, c: Id)
    requires n <= |b.casualties| && c in b.casualties[..n]
    ensures forall e :: e in CasualtyPart(w, b, tier, c).events ==> e in Casualties(w, b, tier, n).events
  {
    assert b.casualties[..n] == b.casualties[..n - 1] + [b.casualties[n - 1]];
    if c != b.casualties[n - 1] { CasualtiesContain(w, b, tier, n - 1, c); }
  }

  lemma {:induction false} LootsMembers(w: World, b: Bundle, tier: Tier, n: nat, e: Event)
    requires n <= |b.loot| && e in Loots(w, b, tier, n).events
    ensures e.ItemTransferred?
    ensures Loot(e.item, e.from, e.to) in b.loot[..n]
    ensures Owns(w, Loot(e.item, e.from, e.to)) && LootAllowed(w, b, tier, Loot(e.item, e.from, e.to))
  {
    assert b.loot[..n] == b.loot[..n - 1] + [b.loot[n - 1]];
    if e in Loots(w, b, tier, n - 1).events { LootsMembers(w, b, tier, n - 1, e); }
  }

  lemma DistilledMembers(w: World, b: Bundle, tier: Tier, e: Event)
    ensures e in Distilled(w, b, tier).events <==>
      || e in Feats(w, b, tier, |b.feats|).events
      || e in Casualties(w, b, tier, |b.casualties|).events
      || e in Loots(w, b, tier, |b.loot|).events
  {}

  /** One distillation never contradicts itself. */
  lemma DistilledAgrees(w: World, b: Bundle, tier: Tier)
    ensures Agreeing(Distilled(w, b, tier).events)
  {
    var es := Distilled(w, b, tier).events;
    forall e, f | e in es && f in es && e.ClaimRecorded? && f.ClaimRecorded? && e.id == f.id ensures e.claim == f.claim {
      ClaimIsDetermined(w, b, tier, e);
      ClaimIsDetermined(w, b, tier, f);
    }
    forall e, f | e in es && f in es && SameBelief(e, f) ensures e.hearing == f.hearing {
      BeliefIsCascade(w, b, tier, e);
      BeliefIsCascade(w, b, tier, f);
      CascadeIsTree(w.knows, Testifying(w, b, tier, |b.witnesses|));
    }
  }

  lemma ClaimIsDetermined(w: World, b: Bundle, tier: Tier, e: Event)
    requires e in Distilled(w, b, tier).events && e.ClaimRecorded?
    ensures !e.id.OtherClaim?
    ensures e.id.FeatClaim? ==> e.id.index < |b.feats| && Resolve(w, b.feats[e.id.index].actor).Some?
                                && e == FeatClaimFor(b, e.id.index, Resolve(w, b.feats[e.id.index].actor).value)
    ensures e.id.FellClaim? ==> e.id.casualty in w.actors && e == FellClaimOf(w, b, e.id.casualty)
  {
    DistilledMembers(w, b, tier, e);
    if e in Feats(w, b, tier, |b.feats|).events {
      FeatsMembers(w, b, tier, |b.feats|, e);
    } else if e in Casualties(w, b, tier, |b.casualties|).events {
      CasualtiesMembers(w, b, tier, |b.casualties|, e);
    } else {
      LootsMembers(w, b, tier, |b.loot|, e);
    }
  }

  lemma BeliefIsCascade(w: World, b: Bundle, tier: Tier, e: Event)
    requires e in Distilled(w, b, tier).events && e.BeliefChanged?
    ensures e.hearing in Cascade(w.knows, Testifying(w, b, tier, |b.witnesses|))
  {
    DistilledMembers(w, b, tier, e);
    if e in Feats(w, b, tier, |b.feats|).events {
      FeatsMembers(w, b, tier, |b.feats|, e);
    } else if e in Casualties(w, b, tier, |b.casualties|).events {
      CasualtiesMembers(w, b, tier, |b.casualties|, e);
    } else {
      LootsMembers(w, b, tier, |b.loot|, e);
    }
  }

  // --- the second report ---

  /** The world after the bundle has been distilled and its events applied. */
  function Reported(w: World, b: Bundle, tier: Tier): World {
    ApplyAll(w, Distilled(w, b, tier).events)
  }

  lemma DiedThenDead(w: World, b: Bundle, tier: Tier, c: Id)
    requires c in w.actors && c in b.casualties && c in b.participants && !Protects(w, tier, c)
    ensures var v := Reported(w, b, tier); c in v.actors && v.actors[c].dead
  {
    var es := Distilled(w, b, tier).events;
    DeadAfter(w, es, c);
    if !w.actors[c].dead {
      assert b.casualties[..|b.casualties|] == b.casualties;
      CasualtiesContain(w, b, tier, |b.casualties|, c);
      assert ActorDied(c) in CasualtyPart(w, b, tier, c).events;
      DistilledMembers(w, b, tier, ActorDied(c));
    }
  }

  /** The second distillation kills nobody, and repeats only rumors already abroad. */
  lemma SecondCasualtyInForce(w: World, b: Bundle, tier: Tier, e: Event)
    requires e in Casualties(Reported(w, b, tier), b, tier, |b.casualties|).events
    ensures e.ClaimRecorded? && InForce(Reported(w, b, tier), e)
  {
    var es, v := Distilled(w, b, tier).events, Reported(w, b, tier);
    EventsKeepCast(w, es);
    CasualtiesMembers(v, b, tier, |b.casualties|, e);
    assert b.casualties[..|b.casualties|] == b.casualties;
    var c := if e.ActorDied? then e.actor else e.id.casualty;
    DeadAfter(w, es, c);
    if Protects(w, tier, c) {
      assert e == FellClaimOf(v, b, c) == FellClaimOf(w, b, c);
      CasualtiesContain(w, b, tier, |b.casualties|, c);
      assert e in CasualtyPart(w, b, tier, c).events;
      DistilledMembers(w, b, tier, e);
      DistilledAgrees(w, b, tier);
      RecordsAreInForce(w, es, e);
    } else {
      DiedThenDead(w, b, tier, c);
    }
  }

  lemma SecondFeatInForce(w: World, b: Bundle, tier: Tier, e: Event)
    requires e in Feats(Reported(w, b, tier), b, tier, |b.feats|).events
    ensures (e.ClaimRecorded? || e.BeliefChanged?) && InForce(Reported(w, b, tier), e)
  {
    var es, v := Distilled(w, b, tier).events, Reported(w, b, tier);
    EventsKeepCast(w, es);
    SameCastSameFeats(w, v, b, tier, |b.feats|);
    FeatsMembers(w, b, tier, |b.feats|, e);
    DistilledMembers(w, b, tier, e);
    DistilledAgrees(w, b, tier);
    RecordsAreInForce(w, es, e);
  }

  /** A report's feats and casualties. */
  function Told(w: World, b: Bundle, tier: Tier): seq<Event> {
    Feats(w, b, tier, |b.feats|).events + Casualties(w, b, tier, |b.casualties|).events
  }

  lemma {:induction false} ApplyAllConcat(w: World, es: seq<Event>, fs: seq<Event>)
    ensures ApplyAll(w, es + fs) == ApplyAll(ApplyAll(w, es), fs)
  {
    if fs == [] {
      assert es + fs == es;
    } else {
      assert (es + fs)[..|es + fs| - 1] == es + fs[..|fs| - 1];
      ApplyAllConcat(w, es, fs[..|fs| - 1]);
    }
  }

  /** A report is what it tells, and then its loot. */
  lemma ReportInTwoParts(w: World, b: Bundle, tier: Tier, u: World)
    ensures ApplyAll(u, Distilled(w, b, tier).events)
         == ApplyAll(ApplyAll(u, Told(w, b, tier)), Loots(w, b, tier, |b.loot|).events)
  {
    ApplyAllConcat(u, Told(w, b, tier), Loots(w, b, tier, |b.loot|).events);
  }

  lemma {:induction false} NoTransferNoOwner(w: World, es: seq<Event>)
    requires forall e :: e in es ==> !e.ItemTransferred?
    ensures ApplyAll(w, es).items == w.items
  {
    if es != [] {
      SplitLast(es);
      NoTransferNoOwner(w, es[..|es| - 1]);
    }
  }

  lemma ToldMovesNothing(w: World, b: Bundle, tier: Tier)
    ensures ApplyAll(w, Told(w, b, tier)).items == w.items
  {
    forall e | e in Told(w, b, tier) ensures !e.ItemTransferred? {
      if e in Feats(w, b, tier, |b.feats|).events {
        FeatsMembers(w, b, tier, |b.feats|, e);
      } else {
        CasualtiesMembers(w, b, tier, |b.casualties|, e);
      }
    }
    NoTransferNoOwner(w, Told(w, b, tier));
  }

  /** Telling it again kills nobody, repeats what is known, and changes nothing. */
  lemma ToldAgain(w: World, b: Bundle, tier: Tier)
    ensures var v := Reported(w, b, tier);
      && ApplyAll(v, Told(v, b, tier)) == v
      && forall e :: e in Told(v, b, tier) ==> !e.ActorDied? && (e.ClaimRecorded? ==> e.id in v.claims)
  {
    var v := Reported(w, b, tier);
    forall e | e in Told(v, b, tier)
      ensures InForce(v, e) && !e.ActorDied? && (e.ClaimRecorded? ==> e.id in v.claims)
    {
      if e in Feats(v, b, tier, |b.feats|).events {
        SecondFeatInForce(w, b, tier, e);
      } else {
        SecondCasualtyInForce(w, b, tier, e);
      }
      if e.ClaimRecorded? { assert e.id in v.claims[e.id := e.claim]; }
    }
    NothingLeftToDo(v, Told(v, b, tier));
  }

  // --- who ends up with an item ---

  /** To whom the first `n` lines hand `item` over from `owner`, leaving out what the scope and the
      protection of the report rule out. */
  function Gives(w: World, b: Bundle, tier: Tier, item: Id, owner: Id, n: nat): seq<Id>
    requires n <= |b.loot|
  {
    if n == 0 then []
    else
      var l := b.loot[n - 1];
      Gives(w, b, tier, item, owner, n - 1)
      + if l.item == item && l.from == owner && LootAllowed(w, b, tier, l) then [l.to] else []
  }

  function FirstOther(tos: seq<Id>, owner: Id): Id {
    if tos == [] then owner else if tos[0] != owner then tos[0] else FirstOther(tos[1..], owner)
  }

  /** Who has an item after its owner handed it to each of `tos`: the first who is somebody else,
      since the later lines no longer start from its owner. A line from nobody always applies. */
  function Receiver(tos: seq<Id>, owner: Id): Id {
    if owner != "" then FirstOther(tos, owner) else if tos == [] then "" else tos[|tos| - 1]
  }

  lemma {:induction false} FirstOtherExtended(tos: seq<Id>, owner: Id, to: Id)
    ensures FirstOther(tos + [to], owner) == if FirstOther(tos, owner) == owner then to else FirstOther(tos, owner)
  {
    if tos == [] {
      assert [to][1..] == [];
    } else {
      assert (tos + [to])[1..] == tos[1..] + [to];
      FirstOtherExtended(tos[1..], owner, to);
    }
  }

  /** One more line given, or none. */
  lemma OneMoreGiven(tos: seq<Id>, owner: Id, to: Id)
    ensures Receiver(tos + [to], owner)
         == if owner == "" || Receiver(tos, owner) == owner then to else Receiver(tos, owner)
  {
    FirstOtherExtended(tos, owner, to);
  }

  /** What the line `l` of a report on `w` does to the world, in the course of applying it. */
  function AfterLine(v: World, w: World, b: Bundle, tier: Tier, l: Loot): World {
    if Owns(w, l) && LootAllowed(w, b, tier, l) then Apply(v, ItemTransferred(l.item, l.from, l.to)) else v
  }

  function AfterLines(u: World, w: World, b: Bundle, tier: Tier, n: nat): World
    requires n <= |b.loot|
  {
    if n == 0 then u else AfterLine(AfterLines(u, w, b, tier, n - 1), w, b, tier, b.loot[n - 1])
  }

  lemma {:induction false} LinesApply(u: World, w: World, b: Bundle, tier: Tier, n: nat)
    requires n <= |b.loot|
    ensures ApplyAll(u, Loots(w, b, tier, n).events) == AfterLines(u, w, b, tier, n)
  {
    if n > 0 {
      var l := b.loot[n - 1];
      LinesApply(u, w, b, tier, n - 1);
      ApplyAllConcat(u, Loots(w, b, tier, n - 1).events, LootPart(w, b, tier, l).events);
      OneEvent(AfterLines(u, w, b, tier, n - 1), ItemTransferred(l.item, l.from, l.to));
    }
  }

  lemma LineMoves(v: World, w: World, b: Bundle, tier: Tier, l: Loot, item: Id)
    requires item in w.items && item in v.items
    ensures var after := AfterLine(v, w, b, tier, l).items;
      item in after && after[item] ==
        if l.item == item && l.from == w.items[item] && LootAllowed(w, b, tier, l)
           && (w.items[item] == "" || v.items[item] == w.items[item])
        then l.to else v.items[item]
  {}

  lemma GivesOneMore(w: World, b: Bundle, tier: Tier, item: Id, o: Id, n: nat)
    requires n < |b.loot|
    ensures var l, tos := b.loot[n], Gives(w, b, tier, item, o, n);
      Receiver(Gives(w, b, tier, item, o, n + 1), o) ==
        if l.item == item && l.from == o && LootAllowed(w, b, tier, l) && (o == "" || Receiver(tos, o) == o)
        then l.to else Receiver(tos, o)
  {
    var l, tos := b.loot[n], Gives(w, b, tier, item, o, n);
    OneMoreGiven(tos, o, l.to);
    if l.item == item && l.from == o && LootAllowed(w, b, tier, l) {
      assert Gives(w, b, tier, item, o, n + 1) == tos + [l.to];
    } else {
      assert Gives(w, b, tier, item, o, n + 1) == tos;
    }
  }

  lemma {:induction false} LootMoves(u: World, w: World, b: Bundle, tier: Tier, item: Id, n: nat)
    requires n <= |b.loot| && u.items == w.items && item in w.items
    ensures var after := AfterLines(u, w, b, tier, n).items;
      item in after && after[item] == Receiver(Gives(w, b, tier, item, w.items[item], n), w.items[item])
  {
    if n > 0 {
      LootMoves(u, w, b, tier, item, n - 1);
      LineMoves(AfterLines(u, w, b, tier, n - 1), w, b, tier, b.loot[n - 1], item);
      GivesOneMore(w, b, tier, item, w.items[item], n - 1);
    }
  }

  lemma LineMovesOnlyItems(u: World, v: World, w: World, b: Bundle, tier: Tier, l: Loot, after: World)
    requires v == u.(items := v.items) && after == AfterLine(v, w, b, tier, l)
    ensures after == u.(items := after.items)
  {}

  lemma {:induction false} LootMovesOnlyItems(u: World, w: World, b: Bundle, tier: Tier, n: nat)
    requires n <= |b.loot|
    ensures AfterLines(u, w, b, tier, n) == u.(items := AfterLines(u, w, b, tier, n).items)
  {
    if n > 0 {
      var before := AfterLines(u, w, b, tier, n - 1);
      LootMovesOnlyItems(u, w, b, tier, n - 1);
      LineMovesOnlyItems(u, before, w, b, tier, b.loot[n - 1], AfterLines(u, w, b, tier, n));
    }
  }

  /** Who has an item once the bundle is reported. */
  function HolderAfter(w: World, b: Bundle, tier: Tier, item: Id): Id
    requires item in w.items
  {
    Receiver(Gives(w, b, tier, item, w.items[item], |b.loot|), w.items[item])
  }

  lemma ReportedItem(w: World, b: Bundle, tier: Tier, item: Id)
    requires item in w.items
    ensures item in Reported(w, b, tier).items && Reported(w, b, tier).items[item] == HolderAfter(w, b, tier, item)
  {
    ReportInTwoParts(w, b, tier, w);
    ToldMovesNothing(w, b, tier);
    LinesApply(ApplyAll(w, Told(w, b, tier)), w, b, tier, |b.loot|);
    LootMoves(ApplyAll(w, Told(w, b, tier)), w, b, tier, item, |b.loot|);
  }

  lemma {:induction false} SameCastSameGives(w: World, v: World, b: Bundle, tier: Tier, item: Id, owner: Id, n: nat)
    requires SameCast(w, v) && n <= |b.loot|
    ensures Gives(w, b, tier, item, owner, n) == Gives(v, b, tier, item, owner, n)
  {
    if n > 0 { SameCastSameGives(w, v, b, tier, item, owner, n - 1); }
  }

  // --- when a report converges ---

  /** The lines let whoever ends up with the item keep it: none of them hands it on from there to
      somebody else. Of lines from nobody, the last one counts. */
  predicate Settled(w: World, b: Bundle, tier: Tier, item: Id)
    requires item in w.items
  {
    var owner := HolderAfter(w, b, tier, item);
    var tos := Gives(w, b, tier, item, owner, |b.loot|);
    if owner != "" then forall to :: to in tos ==> to == owner else tos == [] || tos[|tos| - 1] == ""
  }

  lemma {:induction false} KeptIff(tos: seq<Id>, owner: Id)
    ensures FirstOther(tos, owner) == owner <==> forall to :: to in tos ==> to == owner
  {
    if tos != [] {
      KeptIff(tos[1..], owner);
      assert tos[0] in tos;
      assert forall to :: to in tos <==> to == tos[0] || to in tos[1..];
    }
  }

  lemma ItemAgain(w: World, b: Bundle, tier: Tier, item: Id)
    requires item in w.items
    ensures var v := Reported(w, b, tier);
      && item in v.items && item in Reported(v, b, tier).items
      && (Reported(v, b, tier).items[item] == v.items[item] <==> Settled(w, b, tier, item))
  {
    var v := Reported(w, b, tier);
    ReportedItem(w, b, tier, item);
    ReportedItem(v, b, tier, item);
    EventsKeepCast(w, Distilled(w, b, tier).events);
    SameCastSameGives(w, v, b, tier, item, v.items[item], |b.loot|);
    KeptIff(Gives(v, b, tier, item, v.items[item], |b.loot|), v.items[item]);
  }

  /** A second report of any bundle, on either tier, changes at most who owns what. */
  lemma OnlyOwnersAgain(w: World, b: Bundle, tier: Tier)
    ensures var v := Reported(w, b, tier);
      && Reported(v, b, tier) == v.(items := Reported(v, b, tier).items)
      && Reported(v, b, tier).items.Keys == v.items.Keys == w.items.Keys
      && (forall e :: e in Distilled(v, b, tier).events && e.ClaimRecorded? ==> e.id in v.claims)
      && (forall e :: e in Distilled(v, b, tier).events ==> !e.ActorDied?)
  {
    var v := Reported(w, b, tier);
    EventsKeepCast(w, Distilled(w, b, tier).events);
    ToldAgain(w, b, tier);
    ReportInTwoParts(v, b, tier, v);
    LinesApply(v, v, b, tier, |b.loot|);
    LootMovesOnlyItems(v, v, b, tier, |b.loot|);
    EventsKeepCast(v, Distilled(v, b, tier).events);
    forall e | e in Distilled(v, b, tier).events
      ensures !e.ActorDied? && (e.ClaimRecorded? ==> e.id in v.claims)
    {
      DistilledMembers(v, b, tier, e);
      if e !in Told(v, b, tier) { LootsMembers(v, b, tier, |b.loot|, e); }
    }
  }

  /** Replay convergence: reporting a bundle a second time leaves the whole world (deaths, owners,
      claims and beliefs) as it was exactly when every item is settled. */
  lemma ConvergesIffSettled(w: World, b: Bundle, tier: Tier)
    ensures var v := Reported(w, b, tier);
      Reported(v, b, tier) == v <==> forall item :: item in w.items ==> Settled(w, b, tier, item)
  {
    var v := Reported(w, b, tier);
    var again := Reported(v, b, tier);
    OnlyOwnersAgain(w, b, tier);
    forall item | item in w.items
      ensures item in v.items && item in again.items
      ensures again.items[item] == v.items[item] <==> Settled(w, b, tier, item)
    {
      ItemAgain(w, b, tier, item);
    }
    if forall item :: item in w.items ==> Settled(w, b, tier, item) {
      assert again.items == v.items;
    }
  }

  /** Each item is listed at most once. */
  ghost predicate ItemsOnce(b: Bundle) {
    forall i, j :: 0 <= i < j < |b.loot| ==> b.loot[i].item != b.loot[j].item
  }

  lemma {:induction false} GivesMembers(w: World, b: Bundle, tier: Tier, item: Id, owner: Id, n: nat, to: Id)
    requires n <= |b.loot|
    ensures to in Gives(w, b, tier, item, owner, n) <==>
            exists i :: 0 <= i < n && b.loot[i] == Loot(item, owner, to) && LootAllowed(w, b, tier, b.loot[i])
  {
    if n > 0 {
      GivesMembers(w, b, tier, item, owner, n - 1, to);
      if to in Gives(w, b, tier, item, owner, n) && to !in Gives(w, b, tier, item, owner, n - 1) {
        assert b.loot[n - 1] == Loot(item, owner, to);
      }
    }
  }

  lemma ListedOnceIsSettled(w: World, b: Bundle, tier: Tier, item: Id)
    requires ItemsOnce(b) && item in w.items
    ensures Settled(w, b, tier, item)
  {
    var o, t := w.items[item], HolderAfter(w, b, tier, item);
    var first, again := Gives(w, b, tier, item, o, |b.loot|), Gives(w, b, tier, item, t, |b.loot|);
    KeptIff(first, o);
    if t != o {
      FirstOtherIsThere(first, o);
      GivesMembers(w, b, tier, item, o, |b.loot|, t);
      if again != [] {
        GivesMembers(w, b, tier, item, t, |b.loot|, again[0]);
        assert false;
      }
    }
  }

  lemma {:induction false} FirstOtherIsThere(tos: seq<Id>, owner: Id)
    ensures FirstOther(tos, owner) != owner ==> FirstOther(tos, owner) in tos
  {
    if tos != [] { FirstOtherIsThere(tos[1..], owner); }
  }

  /** So reporting a bundle that lists each item at most once converges, on either tier: the second
      report emits no death and no claim that is not already recorded, and changes nothing. */
  lemma ReplayConverges(w: World, b: Bundle, tier: Tier)
    requires ItemsOnce(b)
    ensures var v := Reported(w, b, tier);
      && Reported(v, b, tier) == v
      && (forall e :: e in Distilled(v, b, tier).events && e.ClaimRecorded? ==> e.id in v.claims)
      && (forall e :: e in Distilled(v, b, tier).events ==> !e.ActorDied?)
  {
    forall item | item in w.items ensures Settled(w, b, tier, item) {
      ListedOnceIsSettled(w, b, tier, item);
    }
    ConvergesIffSettled(w, b, tier);
    OnlyOwnersAgain(w, b, tier);
  }

  /** Handing an item on and back breaks it: the line back is dropped the first time, when its giver
      does not own the item yet, and applied the second time. */
  lemma ListingAnItemTwiceDiverges(a: Id, c: Id, item: Id)
    requires a != c && a != "" && c != ""
    ensures var w := World(map[], {}, map[], map[], map[item := a], map[], map[]);
      var b := Bundle("e", [a, c], [], [], [], [Loot(item, a, c), Loot(item, c, a)]);
      var v := Reported(w, b, Trusted);
      && item in v.items && v.items[item] == c
      && item in Reported(v, b, Trusted).items && Reported(v, b, Trusted).items[item] == a
  {
    var w := World(map[], {}, map[], map[], map[item := a], map[], map[]);
    var b := Bundle("e", [a, c], [], [], [], [Loot(item, a, c), Loot(item, c, a)]);
    HandedOver(w, b, item, a, c);
    HandedOver(Reported(w, b, Trusted), b, item, c, a);
  }

  /** Of a line there and a line back, only one hands the item on from its owner `a`. */
  lemma OneHandsOn(w: World, b: Bundle, item: Id, a: Id, c: Id)
    requires a != c && a in b.participants && c in b.participants && b.casualties == []
    requires b.loot == [Loot(item, a, c), Loot(item, c, a)] || b.loot == [Loot(item, c, a), Loot(item, a, c)]
    ensures Gives(w, b, Trusted, item, a, |b.loot|) == [c]
  {
    assert LootAllowed(w, b, Trusted, b.loot[0]) && LootAllowed(w, b, Trusted, b.loot[1]);
    assert Gives(w, b, Trusted, item, a, 0) == [];
    assert Gives(w, b, Trusted, item, a, 1) == if b.loot[0].from == a then [c] else [];
    assert Gives(w, b, Trusted, item, a, 2) == [c];
  }

  lemma HandedOver(w: World, b: Bundle, item: Id, a: Id, c: Id)
    requires a != c && a != "" && a in b.participants && c in b.participants && b.casualties == []
    requires item in w.items && w.items[item] == a
    requires b.loot == [Loot(item, a, c), Loot(item, c, a)] || b.loot == [Loot(item, c, a), Loot(item, a, c)]
    ensures item in Reported(w, b, Trusted).items && Reported(w, b, Trusted).items[item] == c
  {
    OneHandsOn(w, b, item, a, c);
    ReportedItem(w, b, Trusted, item);
  }

  lemma OneEvent(w: World, e: Event)
    ensures ApplyAll(w, [e]) == Apply(w, e)
  {
    assert [e][..0] == [];
  }

  // --- who a report can touch ---

  /** Outside the declared cast, or under the tier's protection. */
  predicate OffLimits(w: World, b: Bundle, tier: Tier, a: Id) {
    a !in b.participants || Protects(w, tier, a)
  }

  /** `u` differs from `w` only in who of the reachable cast has died and which of them owns what. */
  ghost predicate OthersUntouched(w: World, b: Bundle, tier: Tier, u: World) {
    && u.actors.Keys == w.actors.Keys && u.items.Keys == w.items.Keys
    && (forall a :: a in w.actors && OffLimits(w, b, tier, a) ==> u.actors[a] == w.actors[a])
    && (forall i :: i in w.items && OffLimits(w, b, tier, w.items[i]) ==> u.items[i] == w.items[i])
    && (forall i :: i in w.items && u.items[i] != w.items[i] ==> !OffLimits(w, b, tier, u.items[i]))
  }

  ghost predicate InBounds(w: World, b: Bundle, tier: Tier, e: Event) {
    match e
    case ActorDied(a) => !OffLimits(w, b, tier, a)
    case ItemTransferred(i, from, to) =>
      i in w.items && w.items[i] == from && !OffLimits(w, b, tier, from) && !OffLimits(w, b, tier, to)
    case _ => true
  }

  lemma DistilledInBounds(w: World, b: Bundle, tier: Tier, e: Event)
    requires e in Distilled(w, b, tier).events
    ensures InBounds(w, b, tier, e)
  {
    DistilledMembers(w, b, tier, e);
    if e in Feats(w, b, tier, |b.feats|).events {
      FeatsMembers(w, b, tier, |b.feats|, e);
    } else if e in Casualties(w, b, tier, |b.casualties|).events {
      CasualtiesMembers(w, b, tier, |b.casualties|, e);
    } else {
      LootsMembers(w, b, tier, |b.loot|, e);
    }
  }

  lemma InBoundsLeavesOthers(w: World, b: Bundle, tier: Tier, u: World, e: Event)
    requires OthersUntouched(w, b, tier, u) && InBounds(w, b, tier, e)
    ensures OthersUntouched(w, b, tier, Apply(u, e))
  {
    var v := Apply(u, e);
    assert v.actors.Keys == u.actors.Keys && v.items.Keys == u.items.Keys;
  }

  lemma {:induction false} AllInBoundsLeaveOthers(w: World, b: Bundle, tier: Tier, es: seq<Event>)
    requires forall e :: e in es ==> InBounds(w, b, tier, e)
    ensures OthersUntouched(w, b, tier, ApplyAll(w, es))
  {
    if es != [] {
      assert es[|es| - 1] in es;
      assert forall e :: e in es[..|es| - 1] ==> e in es;
      AllInBoundsLeaveOthers(w, b, tier, es[..|es| - 1]);
      InBoundsLeavesOthers(w, b, tier, ApplyAll(w, es[..|es| - 1]), es[|es| - 1]);
    }
  }

  /** A report kills and moves the goods of nobody outside its declared cast and, untrusted, of
      nobody protected; nor does either ever come into anything by it. */
  lemma ReportTouchesOnlyItsCast(w: World, b: Bundle, tier: Tier)
    ensures OthersUntouched(w, b, tier, Reported(w, b, tier))
  {
    forall e | e in Distilled(w, b, tier).events ensures InBounds(w, b, tier, e) {
      DistilledInBounds(w, b, tier, e);
    }
    AllInBoundsLeaveOthers(w, b, tier, Distilled(w, b, tier).events);
  }
}
