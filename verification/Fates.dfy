/** What a reported outcome does, actor by actor and item by item: who dies, who is said to have fallen,
    what is claimed, who comes to believe it, and what changes hands. */
module Fates {
  import opened Common
  import opened Rumors
  import opened Outcomes
  import opened Replay

  // --- references, scope and protection, written out ---

  /** The reference is the actor's id, or, being nobody's id, a name that is found for it. */
  predicate Names(w: World, ref: string, a: Id) {
    ref != "" && if ref in w.actors then a == ref else ref in w.byName && w.byName[ref] == a
  }

  /** An untrusted report may not touch a player character or a figure of tier two and up. */
  predicate Shielded(w: World, tier: Tier, a: Id) {
    tier == Untrusted && (a in w.pcs || (a in w.actors && w.actors[a].tier >= 2))
  }

  /** Reported as seen by `x`, who is declared, did not fall, exists and may be conscripted. */
  predicate Saw(w: World, b: Bundle, tier: Tier, x: Id) {
    x in b.witnesses && x in b.participants && x !in b.casualties && x in w.actors && !Shielded(w, tier, x)
  }

  /** Whom a feat is told of: a declared combatant. */
  predicate FeatBy(w: World, b: Bundle, i: nat, a: Id) {
    i < |b.feats| && Names(w, b.feats[i].actor, a) && a in b.participants
  }

  /** A reported casualty who was alive and declared. */
  predicate Fell(w: World, b: Bundle, a: Id) {
    a in b.casualties && a in b.participants && a in w.actors && !w.actors[a].dead
  }

  /** A declared loser who owned the item, a declared recipient who did not fall, and neither shielded. */
  predicate ChangesHands(w: World, b: Bundle, tier: Tier, item: Id, from: Id, to: Id) {
    && Loot(item, from, to) in b.loot && item in w.items && w.items[item] == from
    && from in b.participants && to in b.participants && to !in b.casualties
    && !Shielded(w, tier, from) && !Shielded(w, tier, to)
  }

  lemma ShieldedIsProtected(w: World, tier: Tier, a: Id)
    ensures Shielded(w, tier, a) <==> Protects(w, tier, a)
  {}

  lemma {:induction false} TestifyingSaw(w: World, b: Bundle, tier: Tier, n: nat, x: Id)
    requires n <= |b.witnesses|
    ensures x in Testifying(w, b, tier, n) <==> x in b.witnesses[..n] && Testifies(w, b, tier, x)
  {
    if n > 0 {
      assert b.witnesses[..n] == b.witnesses[..n - 1] + [b.witnesses[n - 1]];
      TestifyingSaw(w, b, tier, n - 1, x);
    }
  }

  lemma WitnessesSaw(w: World, b: Bundle, tier: Tier, x: Id)
    ensures x in Testifying(w, b, tier, |b.witnesses|) <==> Saw(w, b, tier, x)
  {
    TestifyingSaw(w, b, tier, |b.witnesses|, x);
    assert b.witnesses[..|b.witnesses|] == b.witnesses;
    ShieldedIsProtected(w, tier, x);
  }

  // --- what a feat's part is ---

  lemma {:induction false} FeatsComeFrom(w: World, b: Bundle, tier: Tier, n: nat, e: Event) returns (i: nat)
    requires n <= |b.feats| && e in Feats(w, b, tier, n).events
    ensures i < n && e in FeatPart(w, b, tier, i).events
  {
    if e in Feats(w, b, tier, n - 1).events { i := FeatsComeFrom(w, b, tier, n - 1, e); } else { i := n - 1; }
  }

  lemma {:induction false} FeatsInclude(w: World, b: Bundle, tier: Tier, n: nat, i: nat, e: Event)
    requires i < n <= |b.feats| && e in FeatPart(w, b, tier, i).events
    ensures e in Feats(w, b, tier, n).events
  {
    assert Feats(w, b, tier, n).events == Feats(w, b, tier, n - 1).events + FeatPart(w, b, tier, n - 1).events;
    if i < n - 1 { FeatsInclude(w, b, tier, n - 1, i, e); }
  }

  lemma FeatPartIs(w: World, b: Bundle, tier: Tier, i: nat, e: Event)
    requires i < |b.feats|
    ensures e in FeatPart(w, b, tier, i).events <==>
      exists a :: FeatBy(w, b, i, a) && (e == FeatClaimFor(b, i, a) || TellsOf(w, b, tier, i, e))
  {
    BeliefsMembers(FeatClaim(b.encounter, i), Cascade(w.knows, Testifying(w, b, tier, |b.witnesses|)), e);
    var actor := Resolve(w, b.feats[i].actor);
    if actor.Some? && actor.value in b.participants {
      assert FeatBy(w, b, i, actor.value);
    }
  }

  /** A belief in the `i`th feat's claim, from the cascade among those who saw it. */
  predicate TellsOf(w: World, b: Bundle, tier: Tier, i: nat, e: Event) {
    e.BeliefChanged? && e.id == FeatClaim(b.encounter, i)
    && e.hearing in Cascade(w.knows, Testifying(w, b, tier, |b.witnesses|))
  }

  lemma CasualtyPartIs(w: World, b: Bundle, tier: Tier, c: Id, e: Event)
    requires c in b.casualties
    ensures e in CasualtyPart(w, b, tier, c).events <==>
      Fell(w, b, c) && e == if Shielded(w, tier, c) then FellClaimOf(w, b, c) else ActorDied(c)
  {
    ShieldedIsProtected(w, tier, c);
  }

  lemma {:induction false} LootsComeFrom(w: World, b: Bundle, tier: Tier, n: nat, e: Event) returns (k: nat)
    requires n <= |b.loot| && e in Loots(w, b, tier, n).events
    ensures k < n && e in LootPart(w, b, tier, b.loot[k]).events
  {
    if e in Loots(w, b, tier, n - 1).events { k := LootsComeFrom(w, b, tier, n - 1, e); } else { k := n - 1; }
  }

  lemma {:induction false} LootsInclude(w: World, b: Bundle, tier: Tier, n: nat, k: nat, e: Event)
    requires k < n <= |b.loot| && e in LootPart(w, b, tier, b.loot[k]).events
    ensures e in Loots(w, b, tier, n).events
  {
    if k < n - 1 { LootsInclude(w, b, tier, n - 1, k, e); }
  }

  lemma LootPartIs(w: World, b: Bundle, tier: Tier, k: nat, e: Event)
    requires k < |b.loot|
    ensures e in LootPart(w, b, tier, b.loot[k]).events <==>
      var l := b.loot[k];
      e == ItemTransferred(l.item, l.from, l.to) && ChangesHands(w, b, tier, l.item, l.from, l.to)
  {
    var l := b.loot[k];
    assert l == Loot(l.item, l.from, l.to);
    ShieldedIsProtected(w, tier, l.from);
    ShieldedIsProtected(w, tier, l.to);
  }

  // --- who dies, and who is said to have fallen ---

  lemma CasualtyEvents(w: World, b: Bundle, tier: Tier, c: Id, e: Event)
    requires e == ActorDied(c) || (e.ClaimRecorded? && e.id == FellClaim(b.encounter, c))
    ensures e in Distilled(w, b, tier).events <==> c in b.casualties && e in CasualtyPart(w, b, tier, c).events
  {
    var es := Casualties(w, b, tier, |b.casualties|).events;
    DistilledMembers(w, b, tier, e);
    assert b.casualties[..|b.casualties|] == b.casualties;
    if e in Feats(w, b, tier, |b.feats|).events { FeatsMembers(w, b, tier, |b.feats|, e); }
    if e in Loots(w, b, tier, |b.loot|).events { LootsMembers(w, b, tier, |b.loot|, e); }
    if e in es { CasualtiesMembers(w, b, tier, |b.casualties|, e); }
    if c in b.casualties { CasualtiesContain(w, b, tier, |b.casualties|, c); }
  }

  /** A death is committed exactly for the declared, living, unshielded casualties. */
  lemma DiesIff(w: World, b: Bundle, tier: Tier, a: Id)
    ensures ActorDied(a) in Distilled(w, b, tier).events <==> Fell(w, b, a) && !Shielded(w, tier, a)
  {
    CasualtyEvents(w, b, tier, a, ActorDied(a));
    if a in b.casualties { CasualtyPartIs(w, b, tier, a, ActorDied(a)); }
  }

  /** A shielded one is only said to have fallen, as testimony nobody vouches for. */
  lemma SaidToHaveFallenIff(w: World, b: Bundle, tier: Tier, a: Id, claim: Claim)
    ensures ClaimRecorded(FellClaim(b.encounter, a), claim) in Distilled(w, b, tier).events <==>
      && Fell(w, b, a) && Shielded(w, tier, a)
      && claim == Claim(w.actors[a].name + " is said to have fallen at " + b.encounter + ".", [a], "unknown", "external")
  {
    var e := ClaimRecorded(FellClaim(b.encounter, a), claim);
    CasualtyEvents(w, b, tier, a, e);
    if a in b.casualties { CasualtyPartIs(w, b, tier, a, e); }
  }

  /** So after the report exactly those are dead who were, or who fell and were not shielded. */
  lemma DeadAfterReportIff(w: World, b: Bundle, tier: Tier, a: Id)
    requires a in w.actors
    ensures var v := Reported(w, b, tier);
      a in v.actors && (v.actors[a].dead <==> w.actors[a].dead || (Fell(w, b, a) && !Shielded(w, tier, a)))
  {
    DeadAfter(w, Distilled(w, b, tier).events, a);
    DiesIff(w, b, tier, a);
  }

  // --- what changes hands ---

  lemma TransferIff(w: World, b: Bundle, tier: Tier, item: Id, from: Id, to: Id)
    ensures ItemTransferred(item, from, to) in Distilled(w, b, tier).events <==> ChangesHands(w, b, tier, item, from, to)
  {
    var e := ItemTransferred(item, from, to);
    DistilledMembers(w, b, tier, e);
    if e in Feats(w, b, tier, |b.feats|).events { FeatsMembers(w, b, tier, |b.feats|, e); }
    if e in Casualties(w, b, tier, |b.casualties|).events { CasualtiesMembers(w, b, tier, |b.casualties|, e); }
    if e in Loots(w, b, tier, |b.loot|).events {
      var k := LootsComeFrom(w, b, tier, |b.loot|, e);
      LootPartIs(w, b, tier, k, e);
    }
    if ChangesHands(w, b, tier, item, from, to) {
      var k :| 0 <= k < |b.loot| && b.loot[k] == Loot(item, from, to);
      LootPartIs(w, b, tier, k, e);
      LootsInclude(w, b, tier, |b.loot|, k, e);
    }
  }

  // --- what is claimed, and who believes it ---

  lemma FeatEvents(w: World, b: Bundle, tier: Tier, i: nat, e: Event)
    requires (e.ClaimRecorded? || e.BeliefChanged?) && e.id == FeatClaim(b.encounter, i)
    ensures e in Distilled(w, b, tier).events <==> i < |b.feats| && e in FeatPart(w, b, tier, i).events
  {
    DistilledMembers(w, b, tier, e);
    if e in Casualties(w, b, tier, |b.casualties|).events { CasualtiesMembers(w, b, tier, |b.casualties|, e); }
    if e in Loots(w, b, tier, |b.loot|).events { LootsMembers(w, b, tier, |b.loot|, e); }
    if e in Feats(w, b, tier, |b.feats|).events {
      var k := FeatsComeFrom(w, b, tier, |b.feats|, e);
      FeatPartIs(w, b, tier, k, e);
    }
    if i < |b.feats| && e in FeatPart(w, b, tier, i).events { FeatsInclude(w, b, tier, |b.feats|, i, e); }
  }

  /** A feat is claimed exactly when it is a declared combatant's, as testimony about that actor. */
  lemma FeatClaimedIff(w: World, b: Bundle, tier: Tier, i: nat, claim: Claim)
    ensures ClaimRecorded(FeatClaim(b.encounter, i), claim) in Distilled(w, b, tier).events <==>
      exists a :: FeatBy(w, b, i, a) && claim == Claim(b.feats[i].description, [a], "unknown", "external")
  {
    var e := ClaimRecorded(FeatClaim(b.encounter, i), claim);
    FeatEvents(w, b, tier, i, e);
    if i < |b.feats| { FeatPartIs(w, b, tier, i, e); }
  }

  /** At most `n` acquaintances away from somebody who saw it. */
  ghost predicate WordReaches(w: World, b: Bundle, tier: Tier, a: Id, n: nat)
    decreases n
  {
    if n == 0 then Saw(w, b, tier, a)
    else
      || WordReaches(w, b, tier, a, n - 1)
      || exists s :: WordReaches(w, b, tier, s, n - 1) && s in w.knows && a in w.knows[s]
  }

  lemma {:induction false} WordReachesWithin(w: World, b: Bundle, tier: Tier, a: Id, n: nat)
    ensures WordReaches(w, b, tier, a, n) <==> Within(w.knows, Testifying(w, b, tier, |b.witnesses|), a, n)
    decreases n
  {
    var ws := Testifying(w, b, tier, |b.witnesses|);
    if n == 0 {
      WitnessesSaw(w, b, tier, a);
    } else {
      var m: nat := n - 1;
      WordReachesWithin(w, b, tier, a, m);
      forall s ensures WordReaches(w, b, tier, s, m) <==> Within(w.knows, ws, s, m) {
        WordReachesWithin(w, b, tier, s, m);
      }
      if s :| WordReaches(w, b, tier, s, m) && s in w.knows && a in w.knows[s] {
        assert Within(w.knows, ws, s, m) && a in Acquaintances(w.knows, s);
      }
      if s :| Within(w.knows, ws, s, m) && a in Acquaintances(w.knows, s) {
        assert WordReaches(w, b, tier, s, m) && s in w.knows && a in w.knows[s];
      }
    }
  }

  predicate Emits(w: World, b: Bundle, tier: Tier, e: Event) {
    e in Distilled(w, b, tier).events
  }

  /** The distillation makes `a` believe the `i`th feat's claim, at most `n` retellings from a witness. */
  ghost predicate MadeToBelieve(w: World, b: Bundle, tier: Tier, i: nat, a: Id, n: nat) {
    exists h: Hearing :: Emits(w, b, tier, BeliefChanged(FeatClaim(b.encounter, i), h)) && h.actor == a && h.hop <= n
  }

  lemma BeliefIsHeard(w: World, b: Bundle, tier: Tier, i: nat, h: Hearing)
    ensures Emits(w, b, tier, BeliefChanged(FeatClaim(b.encounter, i), h)) <==>
      (exists c :: FeatBy(w, b, i, c)) && h in Cascade(w.knows, Testifying(w, b, tier, |b.witnesses|))
  {
    var e := BeliefChanged(FeatClaim(b.encounter, i), h);
    FeatEvents(w, b, tier, i, e);
    if i < |b.feats| { FeatPartIs(w, b, tier, i, e); }
  }

  /** Within any believable number of hops, somebody is made to believe a feat exactly when the feat is
      a declared combatant's and word of it reaches them in so many: every witness and every one of
      their acquaintances does, and nobody else. */
  lemma BelievesIff(w: World, b: Bundle, tier: Tier, i: nat, a: Id, n: nat)
    requires Believable(n)
    ensures MadeToBelieve(w, b, tier, i, a, n) <==> (exists c :: FeatBy(w, b, i, c)) && WordReaches(w, b, tier, a, n)
  {
    var heard := Cascade(w.knows, Testifying(w, b, tier, |b.witnesses|));
    HeardIffReachable(w.knows, Testifying(w, b, tier, |b.witnesses|), a, n);
    WordReachesWithin(w, b, tier, a, n);
    forall h: Hearing ensures Emits(w, b, tier, BeliefChanged(FeatClaim(b.encounter, i), h)) <==>
      (exists c :: FeatBy(w, b, i, c)) && h in heard
    {
      BeliefIsHeard(w, b, tier, i, h);
    }
    if HeardBy(heard, a, n) {
      var k :| 0 <= k < |heard| && heard[k].actor == a && heard[k].hop <= n;
      assert heard[k] in heard;
    }
  }

  /** Nobody is made to believe a thing twice over, and nobody past the last believable hop. */
  lemma BelievesOnce(w: World, b: Bundle, tier: Tier, i: nat, h: Hearing, k: Hearing)
    requires Emits(w, b, tier, BeliefChanged(FeatClaim(b.encounter, i), h))
    ensures Believable(h.hop)
    ensures Emits(w, b, tier, BeliefChanged(FeatClaim(b.encounter, i), k)) && k.actor == h.actor ==> k == h
  {
    var ws := Testifying(w, b, tier, |b.witnesses|);
    CascadeIsTree(w.knows, ws);
    BeliefIsHeard(w, b, tier, i, h);
    BeliefIsHeard(w, b, tier, i, k);
  }

  // --- the beliefs after the report ---

  /** What is believed at `key` in `v` is `h`, or, if `changed` is false, what was in `w`. */
  ghost predicate BelievesNow(w: World, v: World, key: (Id, ClaimId), changed: bool, h: Hearing) {
    if changed then key in v.beliefs && v.beliefs[key] == h
    else (key in v.beliefs <==> key in w.beliefs) && (key in w.beliefs ==> v.beliefs[key] == w.beliefs[key])
  }

  lemma BeliefStep(w: World, e: Event, a: Id, id: ClaimId, h: Hearing)
    requires h.actor == a && (e.BeliefChanged? && e.id == id && e.hearing.actor == a ==> e.hearing == h)
    ensures BelievesNow(w, Apply(w, e), (a, id), e == BeliefChanged(id, h), h)
  {}

  /** When no two of the events disagree about it. */
  lemma {:induction false} BeliefAfter(w: World, es: seq<Event>, a: Id, id: ClaimId, h: Hearing)
    requires forall k: Hearing :: BeliefChanged(id, k) in es && k.actor == a ==> k == h
    requires h.actor == a
    ensures BelievesNow(w, ApplyAll(w, es), (a, id), BeliefChanged(id, h) in es, h)
  {
    if es != [] {
      var front, last := es[..|es| - 1], es[|es| - 1];
      assert es == front + [last];
      BeliefAfter(w, front, a, id, h);
      if last.BeliefChanged? && last.id == id && last.hearing.actor == a {
        assert BeliefChanged(id, last.hearing) in es;
      }
      BeliefStep(ApplyAll(w, front), last, a, id, h);
    }
  }

  /** The feat is claimed, and word of it reaches `a` while it is believable. */
  ghost predicate ComesToBelieve(w: World, b: Bundle, tier: Tier, i: nat, a: Id) {
    (exists c :: FeatBy(w, b, i, c)) && exists n :: Believable(n) && WordReaches(w, b, tier, a, n)
  }

  lemma BelieverHas(w: World, b: Bundle, tier: Tier, i: nat, a: Id) returns (h: Hearing)
    requires ComesToBelieve(w, b, tier, i, a)
    ensures Emits(w, b, tier, BeliefChanged(FeatClaim(b.encounter, i), h)) && h.actor == a
  {
    var n :| Believable(n) && WordReaches(w, b, tier, a, n);
    BelievesIff(w, b, tier, i, a, n);
    h :| Emits(w, b, tier, BeliefChanged(FeatClaim(b.encounter, i), h)) && h.actor == a && h.hop <= n;
  }

  lemma OnlyBelieversHave(w: World, b: Bundle, tier: Tier, i: nat, h: Hearing)
    requires Emits(w, b, tier, BeliefChanged(FeatClaim(b.encounter, i), h))
    ensures ComesToBelieve(w, b, tier, i, h.actor)
  {
    BelievesOnce(w, b, tier, i, h, h);
    assert MadeToBelieve(w, b, tier, i, h.actor, h.hop);
    BelievesIff(w, b, tier, i, h.actor, h.hop);
  }

  /** After the report, those word reaches believe it from the least possible hop; what anybody else
      believed of it, or did not, is as before. */
  lemma BelievedAfterReport(w: World, b: Bundle, tier: Tier, i: nat, a: Id)
    ensures var v, key := Reported(w, b, tier), (a, FeatClaim(b.encounter, i));
      if ComesToBelieve(w, b, tier, i, a) then
        && key in v.beliefs && v.beliefs[key].actor == a && Believable(v.beliefs[key].hop)
        && forall n :: Believable(n) ==> (v.beliefs[key].hop <= n <==> WordReaches(w, b, tier, a, n))
      else
        && (key in v.beliefs <==> key in w.beliefs)
        && (key in w.beliefs ==> v.beliefs[key] == w.beliefs[key])
  {
    var es, id := Distilled(w, b, tier).events, FeatClaim(b.encounter, i);
    if ComesToBelieve(w, b, tier, i, a) {
      var h := BelieverHas(w, b, tier, i, a);
      forall k: Hearing | BeliefChanged(id, k) in es && k.actor == a ensures k == h {
        assert Emits(w, b, tier, BeliefChanged(id, k));
        BelievesOnce(w, b, tier, i, h, k);
      }
      BeliefAfter(w, es, a, id, h);
      BelievesOnce(w, b, tier, i, h, h);
      forall n | Believable(n) ensures h.hop <= n <==> WordReaches(w, b, tier, a, n) {
        LeastHop(w, b, tier, i, h, n);
      }
    } else {
      forall k: Hearing | BeliefChanged(id, k) in es && k.actor == a ensures false {
        assert Emits(w, b, tier, BeliefChanged(id, k));
        OnlyBelieversHave(w, b, tier, i, k);
      }
      BeliefAfter(w, es, a, id, Hearing(a, 0, None));
    }
  }

  lemma LeastHop(w: World, b: Bundle, tier: Tier, i: nat, h: Hearing, n: nat)
    requires Emits(w, b, tier, BeliefChanged(FeatClaim(b.encounter, i), h)) && Believable(n)
    requires exists c :: FeatBy(w, b, i, c)
    ensures h.hop <= n <==> WordReaches(w, b, tier, h.actor, n)
  {
    BelievesIff(w, b, tier, i, h.actor, n);
    if WordReaches(w, b, tier, h.actor, n) {
      var k: Hearing :|
        Emits(w, b, tier, BeliefChanged(FeatClaim(b.encounter, i), k)) && k.actor == h.actor && k.hop <= n;
      BelievesOnce(w, b, tier, i, h, k);
    }
  }
}
