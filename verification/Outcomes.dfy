/** Distilling a reported outcome into events, under one of two trust tiers, and applying the events. */
module Outcomes {
  import opened Common
  import opened Rumors

  // --- the world as its projections show it ---

  datatype Actor = Actor(name: string, tier: int, dead: bool)

  /** Claim ids are minted from the encounter and the reported item. */
  datatype ClaimId = FeatClaim(encounter: Id, index: nat) | FellClaim(encounter: Id, casualty: Id) | OtherClaim(id: Id)

  datatype Claim = Claim(statement: string, subjects: seq<Id>, truth: string, origin: string)

  /** `byName` is what a lookup by name finds; `items` gives each item's owner. */
  datatype World = World(
    actors: map<Id, Actor>, pcs: set<Id>, byName: map<string, Id>, knows: map<Id, seq<Id>>,
    items: map<Id, Id>, claims: map<ClaimId, Claim>, beliefs: map<(Id, ClaimId), Hearing>)

  datatype Event =
    | ClaimRecorded(id: ClaimId, claim: Claim)
    | BeliefChanged(id: ClaimId, hearing: Hearing)
    | ActorDied(actor: Id)
    | ItemTransferred(item: Id, from: Id, to: Id)

  function Apply(w: World, e: Event): World {
    match e
    case ClaimRecorded(id, claim) => w.(claims := w.claims[id := claim])
    case BeliefChanged(id, h) => w.(beliefs := w.beliefs[(h.actor, id) := h])
    case ActorDied(a) => if a in w.actors then w.(actors := w.actors[a := w.actors[a].(dead := true)]) else w
    case ItemTransferred(i, from, to) =>
      if i in w.items && (from == "" || w.items[i] == from) then w.(items := w.items[i := to]) else w
  }

  function ApplyAll(w: World, es: seq<Event>): World {
    if es == [] then w else Apply(ApplyAll(w, es[..|es| - 1]), es[|es| - 1])
  }

  // --- the report ---

  datatype Feat = Feat(actor: string, description: string)

  datatype Loot = Loot(item: Id, from: Id, to: Id)

  datatype Bundle = Bundle(
    encounter: Id, participants: seq<Id>, witnesses: seq<Id>, casualties: seq<Id>,
    feats: seq<Feat>, loot: seq<Loot>)

  datatype Tier = Untrusted | Trusted

  datatype Kind = AFeat | AWitness | ACasualty | ALoot

  datatype Disposition = Applied | Downgraded | Dropped

  datatype Entry = Entry(kind: Kind, ref: Id, disposition: Disposition)

  /** What distilling some of a bundle emits, and what its receipt says. */
  datatype Part = Part(events: seq<Event>, receipt: seq<Entry>) {
    function Then(p: Part): Part {
      Part(events + p.events, receipt + p.receipt)
    }
  }

  const NOTHING := Part([], [])

  /** A player character or a named figure is canon that an untrusted report may not touch. */
  predicate IsProtected(w: World, a: Id) {
    a in w.pcs || (a in w.actors && w.actors[a].tier >= 2)
  }

  predicate Protects(w: World, tier: Tier, a: Id) {
    tier == Untrusted && IsProtected(w, a)
  }

  /** A reference is an actor's id, or failing that a name. */
  function Resolve(w: World, ref: string): Option<Id> {
    if ref == "" then None
    else if ref in w.actors then Some(ref)
    else if ref in w.byName then Some(w.byName[ref])
    else None
  }

  predicate Testifies(w: World, b: Bundle, tier: Tier, x: Id) {
    x in b.participants && x !in b.casualties && x in w.actors && !Protects(w, tier, x)
  }

  function Testifying(w: World, b: Bundle, tier: Tier, n: nat): seq<Id>
    requires n <= |b.witnesses|
  {
    if n == 0 then []
    else Testifying(w, b, tier, n - 1)
         + if Testifies(w, b, tier, b.witnesses[n - 1]) then [b.witnesses[n - 1]] else []
  }

  function WitnessEntries(w: World, b: Bundle, tier: Tier, n: nat): seq<Entry>
    requires n <= |b.witnesses|
  {
    if n == 0 then []
    else WitnessEntries(w, b, tier, n - 1)
         + [Entry(AWitness, b.witnesses[n - 1], if Testifies(w, b, tier, b.witnesses[n - 1]) then Applied else Dropped)]
  }

  function Beliefs(id: ClaimId, heard: seq<Hearing>): seq<Event> {
    if heard == [] then []
    else Beliefs(id, heard[..|heard| - 1]) + [BeliefChanged(id, heard[|heard| - 1])]
  }

  function FeatClaimFor(b: Bundle, i: nat, actor: Id): Event
    requires i < |b.feats|
  {
    ClaimRecorded(FeatClaim(b.encounter, i), Claim(b.feats[i].description, [actor], "unknown", "external"))
  }

  /** A feat by a declared combatant becomes testimony, and a rumor among those who saw it. */
  function FeatPart(w: World, b: Bundle, tier: Tier, i: nat): Part
    requires i < |b.feats|
  {
    var actor := Resolve(w, b.feats[i].actor);
    if actor == None || actor.value !in b.participants then
      Part([], [Entry(AFeat, b.feats[i].actor, Dropped)])
    else
      var id := FeatClaim(b.encounter, i);
      var ws := Testifying(w, b, tier, |b.witnesses|);
      Part([FeatClaimFor(b, i, actor.value)]
             + Beliefs(id, Cascade(w.knows, ws)),
           [Entry(AFeat, actor.value, Applied)] + WitnessEntries(w, b, tier, |b.witnesses|))
  }

  function FellClaimOf(w: World, b: Bundle, c: Id): Event
    requires c in w.actors
  {
    ClaimRecorded(FellClaim(b.encounter, c),
      Claim(w.actors[c].name + " is said to have fallen at " + b.encounter + ".", [c], "unknown", "external"))
  }

  /** A reported casualty dies, or, when protected, is only rumored to have fallen. */
  function CasualtyPart(w: World, b: Bundle, tier: Tier, c: Id): Part {
    if c !in w.actors || w.actors[c].dead || c !in b.participants then Part([], [Entry(ACasualty, c, Dropped)])
    else if !Protects(w, tier, c) then Part([ActorDied(c)], [Entry(ACasualty, c, Applied)])
    else Part([FellClaimOf(w, b, c)], [Entry(ACasualty, c, Downgraded)])
  }

  /** Scope and protection of a transfer, apart from who owns the item. */
  predicate LootAllowed(w: World, b: Bundle, tier: Tier, l: Loot) {
    && l.from in b.participants && l.to in b.participants && l.to !in b.casualties
    && !Protects(w, tier, l.from) && !Protects(w, tier, l.to)
  }

  predicate Owns(w: World, l: Loot) {
    l.item in w.items && w.items[l.item] == l.from
  }

  function LootPart(w: World, b: Bundle, tier: Tier, l: Loot): Part {
    if Owns(w, l) && LootAllowed(w, b, tier, l)
    then Part([ItemTransferred(l.item, l.from, l.to)], [Entry(ALoot, l.item, Applied)])
    else Part([], [Entry(ALoot, l.item, Dropped)])
  }

  function Feats(w: World, b: Bundle, tier: Tier, n: nat): Part
    requires n <= |b.feats|
  {
    if n == 0 then NOTHING else Feats(w, b, tier, n - 1).Then(FeatPart(w, b, tier, n - 1))
  }

  function Casualties(w: World, b: Bundle, tier: Tier, n: nat): Part
    requires n <= |b.casualties|
  {
    if n == 0 then NOTHING else Casualties(w, b, tier, n - 1).Then(CasualtyPart(w, b, tier, b.casualties[n - 1]))
  }

  function Loots(w: World, b: Bundle, tier: Tier, n: nat): Part
    requires n <= |b.loot|
  {
    if n == 0 then NOTHING else Loots(w, b, tier, n - 1).Then(LootPart(w, b, tier, b.loot[n - 1]))
  }

  /** The whole distillation: feats, then casualties, then loot, all read off the same world. */
  function Distilled(w: World, b: Bundle, tier: Tier): Part {
    Feats(w, b, tier, |b.feats|).Then(Casualties(w, b, tier, |b.casualties|)).Then(Loots(w, b, tier, |b.loot|))
  }

  method WitnessLoop(w: World, b: Bundle, tier: Tier) returns (ws: seq<Id>, entries: seq<Entry>)
    ensures ws == Testifying(w, b, tier, |b.witnesses|)
    ensures entries == WitnessEntries(w, b, tier, |b.witnesses|)
  {
    ws, entries := [], [];
    for n := 0 to |b.witnesses|
      invariant ws == Testifying(w, b, tier, n) && entries == WitnessEntries(w, b, tier, n)
    {
      var x := b.witnesses[n];
      if x !in b.participants {
        entries := entries + [Entry(AWitness, x, Dropped)];
      } else if x in b.casualties {
        entries := entries + [Entry(AWitness, x, Dropped)];
      } else if x !in w.actors {
        entries := entries + [Entry(AWitness, x, Dropped)];
      } else if Protects(w, tier, x) {
        entries := entries + [Entry(AWitness, x, Dropped)];
      } else {
        ws := ws + [x];
        entries := entries + [Entry(AWitness, x, Applied)];
      }
    }
  }

  /** Distil a bundle into events to commit and a receipt. */
  method Distill(w: World, b: Bundle, tier: Tier) returns (events: seq<Event>, receipt: seq<Entry>)
    ensures Part(events, receipt) == Distilled(w, b, tier)
  {
    events, receipt := [], [];
    for i := 0 to |b.feats|
      invariant Part(events, receipt) == Feats(w, b, tier, i)
    {
      var feat := b.feats[i];
      var actor := Resolve(w, feat.actor);
      if actor == None || actor.value !in b.participants {
        receipt := receipt + [Entry(AFeat, feat.actor, Dropped)];
        assert Feats(w, b, tier, i).events + [] == Feats(w, b, tier, i).events;
        continue;
      }
      var id := FeatClaim(b.encounter, i);
      var claim := ClaimRecorded(id, Claim(feat.description, [actor.value], "unknown", "external"));
      var ws, entries := WitnessLoop(w, b, tier);
      receipt := receipt + ([Entry(AFeat, actor.value, Applied)] + entries);
      events := events + ([claim] + Beliefs(id, Cascade(w.knows, ws)));
    }
    ghost var feats := Part(events, receipt);
    for n := 0 to |b.casualties|
      invariant Part(events, receipt) == feats.Then(Casualties(w, b, tier, n))
    {
      var c := b.casualties[n];
      ghost var before := Part(events, receipt);
      if c !in w.actors || w.actors[c].dead {
        receipt := receipt + [Entry(ACasualty, c, Dropped)];
      } else if c !in b.participants {
        receipt := receipt + [Entry(ACasualty, c, Dropped)];
      } else if !Protects(w, tier, c) {
        receipt := receipt + [Entry(ACasualty, c, Applied)];
        events := events + [ActorDied(c)];
      } else {
        receipt := receipt + [Entry(ACasualty, c, Downgraded)];
        events := events + [FellClaimOf(w, b, c)];
      }
      ThenAssociates(feats, Casualties(w, b, tier, n), CasualtyPart(w, b, tier, c));
      assert Part(events, receipt) == before.Then(CasualtyPart(w, b, tier, c));
    }
    ghost var casualties := Part(events, receipt);
    for n := 0 to |b.loot|
      invariant Part(events, receipt) == casualties.Then(Loots(w, b, tier, n))
    {
      var l := b.loot[n];
      ghost var before := Part(events, receipt);
      if l.item !in w.items || w.items[l.item] != l.from {
        receipt := receipt + [Entry(ALoot, l.item, Dropped)];
      } else if l.from !in b.participants || l.to !in b.participants {
        receipt := receipt + [Entry(ALoot, l.item, Dropped)];
      } else if l.to in b.casualties {
        receipt := receipt + [Entry(ALoot, l.item, Dropped)];
      } else if Protects(w, tier, l.from) {
        receipt := receipt + [Entry(ALoot, l.item, Dropped)];
      } else if Protects(w, tier, l.to) {
        receipt := receipt + [Entry(ALoot, l.item, Dropped)];
      } else {
        receipt := receipt + [Entry(ALoot, l.item, Applied)];
        events := events + [ItemTransferred(l.item, l.from, l.to)];
      }
      ThenAssociates(casualties, Loots(w, b, tier, n), LootPart(w, b, tier, l));
      assert Part(events, receipt) == before.Then(LootPart(w, b, tier, l));
    }
  }

  lemma ThenAssociates(p: Part, q: Part, r: Part)
    ensures p.Then(q).Then(r) == p.Then(q.Then(r))
  {
    assert p.events + q.events + r.events == p.events + (q.events + r.events);
    assert p.receipt + q.receipt + r.receipt == p.receipt + (q.receipt + r.receipt);
  }
}
