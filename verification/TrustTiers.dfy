/** What the protection ceiling changes in a distillation, and what the receipt accounts for. */
module TrustTiers {
  import opened Common
  import opened Rumors
  import opened Outcomes

  function Collect<S, T>(xs: seq<S>, f: S -> seq<T>): seq<T> {
    if xs == [] then [] else Collect(xs[..|xs| - 1], f) + f(xs[|xs| - 1])
  }

  lemma {:induction false} CollectConcat<S, T>(xs: seq<S>, ys: seq<S>, f: S -> seq<T>)
    ensures Collect(xs + ys, f) == Collect(xs, f) + Collect(ys, f)
  {
    if ys == [] {
      assert xs + ys == xs;
    } else {
      assert (xs + ys)[..|xs + ys| - 1] == xs + ys[..|ys| - 1];
      CollectConcat(xs, ys[..|ys| - 1], f);
    }
  }

  lemma CollectOne<S, T>(x: S, f: S -> seq<T>)
    ensures Collect([x], f) == f(x)
  {
    assert [x][..0] == [];
  }

  // --- what to read off an event list and a receipt ---

  function DeathOf(e: Event): seq<Id> {
    if e.ActorDied? then [e.actor] else []
  }

  function FallRumorOf(e: Event): seq<Id> {
    if e.ClaimRecorded? && e.id.FellClaim? then [e.id.casualty] else []
  }

  function TransferOf(e: Event): seq<Loot> {
    if e.ItemTransferred? then [Loot(e.item, e.from, e.to)] else []
  }

  function FeatClaimOf(e: Event): seq<Event> {
    if e.ClaimRecorded? && e.id.FeatClaim? then [e] else []
  }

  function Deaths(es: seq<Event>): seq<Id> { Collect(es, DeathOf) }
  function FallRumors(es: seq<Event>): seq<Id> { Collect(es, FallRumorOf) }
  function Transfers(es: seq<Event>): seq<Loot> { Collect(es, TransferOf) }
  function FeatClaims(es: seq<Event>): seq<Event> { Collect(es, FeatClaimOf) }

  function SubjectsOf(e: Event): seq<Id> {
    if e.ClaimRecorded? then e.claim.subjects else []
  }

  /** Who the feat claims are about, in order. */
  function FeatSubjects(es: seq<Event>): seq<Id> {
    Collect(FeatClaims(es), SubjectsOf)
  }

  function RefIf(kind: Kind, d: Option<Disposition>): Entry -> seq<Id> {
    (e: Entry) => if e.kind == kind && (d == None || e.disposition == d.value) then [e.ref] else []
  }

  /** The references of one kind, in order, all of them or those with one disposition. */
  function Refs(receipt: seq<Entry>, kind: Kind, d: Option<Disposition>): seq<Id> {
    Collect(receipt, RefIf(kind, d))
  }

  function ProtectedActors(w: World): set<Id> {
    w.pcs + set a | a in w.actors && w.actors[a].tier >= 2
  }

  lemma ProtectedActorsAreProtected(w: World, a: Id)
    ensures a in ProtectedActors(w) <==> IsProtected(w, a)
  {}

  /** Transfers with neither end protected. */
  function Unprotected(w: World, ls: seq<Loot>): seq<Loot> {
    if ls == [] then []
    else
      var l := ls[|ls| - 1];
      Unprotected(w, ls[..|ls| - 1]) + if IsProtected(w, l.from) || IsProtected(w, l.to) then [] else [l]
  }

  lemma {:induction false} UnprotectedConcat(w: World, ls: seq<Loot>, ms: seq<Loot>)
    ensures Unprotected(w, ls + ms) == Unprotected(w, ls) + Unprotected(w, ms)
  {
    if ms == [] {
      assert ls + ms == ls;
    } else {
      assert (ls + ms)[..|ls + ms| - 1] == ls + ms[..|ms| - 1];
      UnprotectedConcat(w, ls, ms[..|ms| - 1]);
    }
  }

  // --- belief events are none of these ---

  lemma {:induction false} BeliefsCarryNothing(id: ClaimId, heard: seq<Hearing>)
    ensures var es := Beliefs(id, heard);
      Deaths(es) == [] && FallRumors(es) == [] && Transfers(es) == [] && FeatClaims(es) == []
  {
    if heard != [] {
      var front := heard[..|heard| - 1];
      BeliefsCarryNothing(id, front);
      var es := Beliefs(id, heard);
      assert es[..|es| - 1] == Beliefs(id, front);
    }
  }

  // --- sections as lists of parts ---

  function Joined(parts: seq<Part>): Part {
    if parts == [] then NOTHING else Joined(parts[..|parts| - 1]).Then(parts[|parts| - 1])
  }

  function FeatParts(w: World, b: Bundle, tier: Tier): seq<Part> {
    seq(|b.feats|, i requires 0 <= i < |b.feats| => FeatPart(w, b, tier, i))
  }

  function CasualtyParts(w: World, b: Bundle, tier: Tier): seq<Part> {
    seq(|b.casualties|, i requires 0 <= i < |b.casualties| => CasualtyPart(w, b, tier, b.casualties[i]))
  }

  function LootParts(w: World, b: Bundle, tier: Tier): seq<Part> {
    seq(|b.loot|, i requires 0 <= i < |b.loot| => LootPart(w, b, tier, b.loot[i]))
  }

  lemma JoinedOneMore(parts: seq<Part>, n: nat)
    requires n < |parts|
    ensures Joined(parts[..n + 1]) == Joined(parts[..n]).Then(parts[n])
  {
    assert parts[..n + 1][..n] == parts[..n];
  }

  lemma {:induction false} FeatsJoined(w: World, b: Bundle, tier: Tier, n: nat)
    requires n <= |b.feats|
    ensures Feats(w, b, tier, n) == Joined(FeatParts(w, b, tier)[..n])
  {
    if n > 0 {
      FeatsJoined(w, b, tier, n - 1);
      JoinedOneMore(FeatParts(w, b, tier), n - 1);
    }
  }

  lemma {:induction false} CasualtiesJoined(w: World, b: Bundle, tier: Tier, n: nat)
    requires n <= |b.casualties|
    ensures Casualties(w, b, tier, n) == Joined(CasualtyParts(w, b, tier)[..n])
  {
    if n > 0 {
      CasualtiesJoined(w, b, tier, n - 1);
      JoinedOneMore(CasualtyParts(w, b, tier), n - 1);
    }
  }

  lemma {:induction false} LootsJoined(w: World, b: Bundle, tier: Tier, n: nat)
    requires n <= |b.loot|
    ensures Loots(w, b, tier, n) == Joined(LootParts(w, b, tier)[..n])
  {
    if n > 0 {
      LootsJoined(w, b, tier, n - 1);
      JoinedOneMore(LootParts(w, b, tier), n - 1);
    }
  }

  lemma TakeAll<T>(s: seq<T>)
    ensures s[..|s|] == s
  {}

  lemma DistilledJoined(w: World, b: Bundle, tier: Tier)
    ensures Distilled(w, b, tier)
         == Joined(FeatParts(w, b, tier)).Then(Joined(CasualtyParts(w, b, tier))).Then(Joined(LootParts(w, b, tier)))
  {
    FeatsJoined(w, b, tier, |b.feats|);
    CasualtiesJoined(w, b, tier, |b.casualties|);
    LootsJoined(w, b, tier, |b.loot|);
    TakeAll(FeatParts(w, b, tier));
    TakeAll(CasualtyParts(w, b, tier));
    TakeAll(LootParts(w, b, tier));
  }

  // --- what a list of parts carries, from what each part carries ---

  lemma JoinedCollects<T>(parts: seq<Part>, f: Event -> seq<T>)
    requires parts != []
    ensures Collect(Joined(parts).events, f)
         == Collect(Joined(parts[..|parts| - 1]).events, f) + Collect(parts[|parts| - 1].events, f)
  {
    CollectConcat(Joined(parts[..|parts| - 1]).events, parts[|parts| - 1].events, f);
  }

  lemma JoinedRefs(parts: seq<Part>, kind: Kind, d: Option<Disposition>)
    requires parts != []
    ensures Refs(Joined(parts).receipt, kind, d)
         == Refs(Joined(parts[..|parts| - 1]).receipt, kind, d) + Refs(parts[|parts| - 1].receipt, kind, d)
  {
    RefsConcat(Joined(parts[..|parts| - 1]).receipt, parts[|parts| - 1].receipt, kind, d);
  }

  lemma {:induction false} NoneCarries<T>(parts: seq<Part>, f: Event -> seq<T>)
    requires forall p :: p in parts ==> Collect(p.events, f) == []
    ensures Collect(Joined(parts).events, f) == []
  {
    if parts != [] {
      var init, last := parts[..|parts| - 1], parts[|parts| - 1];
      assert forall p :: p in init ==> p in parts;
      NoneCarries(init, f);
      JoinedCollects(parts, f);
    }
  }

  lemma {:induction false} NoneRefers(parts: seq<Part>, kind: Kind, d: Option<Disposition>)
    requires forall p :: p in parts ==> Refs(p.receipt, kind, d) == []
    ensures Refs(Joined(parts).receipt, kind, d) == []
  {
    if parts != [] {
      var init, last := parts[..|parts| - 1], parts[|parts| - 1];
      assert forall p :: p in init ==> p in parts;
      NoneRefers(init, kind, d);
      JoinedRefs(parts, kind, d);
    }
  }

  lemma {:induction false} SameCarried<T>(parts: seq<Part>, others: seq<Part>, f: Event -> seq<T>)
    requires |parts| == |others|
    requires forall i :: 0 <= i < |parts| ==> Collect(parts[i].events, f) == Collect(others[i].events, f)
    ensures Collect(Joined(parts).events, f) == Collect(Joined(others).events, f)
  {
    if parts != [] {
      SameCarried(parts[..|parts| - 1], others[..|others| - 1], f);
      JoinedCollects(parts, f);
      JoinedCollects(others, f);
    }
  }

  lemma {:induction false} DroppedCarried(parts: seq<Part>, others: seq<Part>, k: set<Id>)
    requires |parts| == |others|
    requires forall i :: 0 <= i < |parts| ==> Deaths(parts[i].events) == Drop(Deaths(others[i].events), k)
    ensures Deaths(Joined(parts).events) == Drop(Deaths(Joined(others).events), k)
  {
    if parts != [] {
      var n := |parts| - 1;
      DroppedCarried(parts[..n], others[..n], k);
      JoinedCollects(parts, DeathOf);
      JoinedCollects(others, DeathOf);
      DropConcat(Deaths(Joined(others[..n]).events), Deaths(others[n].events), k);
    }
  }

  lemma {:induction false} KeptCarried(parts: seq<Part>, others: seq<Part>, k: set<Id>)
    requires |parts| == |others|
    requires forall i :: 0 <= i < |parts| ==> FallRumors(parts[i].events) == Keep(Deaths(others[i].events), k)
    ensures FallRumors(Joined(parts).events) == Keep(Deaths(Joined(others).events), k)
  {
    if parts != [] {
      var n := |parts| - 1;
      KeptCarried(parts[..n], others[..n], k);
      JoinedCollects(parts, FallRumorOf);
      JoinedCollects(others, DeathOf);
      KeepConcat(Deaths(Joined(others[..n]).events), Deaths(others[n].events), k);
    }
  }

  lemma {:induction false} UnprotectedCarried(w: World, parts: seq<Part>, others: seq<Part>)
    requires |parts| == |others|
    requires forall i :: 0 <= i < |parts| ==> Transfers(parts[i].events) == Unprotected(w, Transfers(others[i].events))
    ensures Transfers(Joined(parts).events) == Unprotected(w, Transfers(Joined(others).events))
  {
    if parts != [] {
      var n := |parts| - 1;
      UnprotectedCarried(w, parts[..n], others[..n]);
      JoinedCollects(parts, TransferOf);
      JoinedCollects(others, TransferOf);
      UnprotectedConcat(w, Transfers(Joined(others[..n]).events), Transfers(others[n].events));
    }
  }

  // --- what each part carries ---

  lemma FeatPartCarries(w: World, b: Bundle, tier: Tier, i: nat)
    requires i < |b.feats|
    ensures var es := FeatPart(w, b, tier, i).events;
      && Deaths(es) == [] && FallRumors(es) == [] && Transfers(es) == []
      && FeatClaims(es) == FeatClaims(FeatPart(w, b, Trusted, i).events)
  {
    var actor := Resolve(w, b.feats[i].actor);
    if actor.Some? && actor.value in b.participants {
      var id := FeatClaim(b.encounter, i);
      var c := ClaimRecorded(id, Claim(b.feats[i].description, [actor.value], "unknown", "external"));
      ClaimThenBeliefs(c, id, Cascade(w.knows, Testifying(w, b, tier, |b.witnesses|)));
      ClaimThenBeliefs(c, id, Cascade(w.knows, Testifying(w, b, Trusted, |b.witnesses|)));
    }
  }

  lemma ClaimThenBeliefs(c: Event, id: ClaimId, heard: seq<Hearing>)
    requires c.ClaimRecorded? && c.id == id && id.FeatClaim?
    ensures var es := [c] + Beliefs(id, heard);
      Deaths(es) == [] && FallRumors(es) == [] && Transfers(es) == [] && FeatClaims(es) == [c]
  {
    BeliefsCarryNothing(id, heard);
    CollectConcat([c], Beliefs(id, heard), DeathOf);
    CollectConcat([c], Beliefs(id, heard), FallRumorOf);
    CollectConcat([c], Beliefs(id, heard), TransferOf);
    CollectConcat([c], Beliefs(id, heard), FeatClaimOf);
    CollectOne(c, DeathOf);
    CollectOne(c, FallRumorOf);
    CollectOne(c, TransferOf);
    CollectOne(c, FeatClaimOf);
  }

  /** What a single death, and a single rumor of one, read as. */
  lemma DeathReads(c: Id)
    ensures var es := [ActorDied(c)];
      Deaths(es) == [c] && FallRumors(es) == [] && Transfers(es) == [] && FeatClaims(es) == []
  {
    var e := ActorDied(c);
    CollectOne(e, DeathOf);
    CollectOne(e, FallRumorOf);
    CollectOne(e, TransferOf);
    CollectOne(e, FeatClaimOf);
  }

  lemma FallReads(w: World, b: Bundle, c: Id)
    requires c in w.actors
    ensures var es := [FellClaimOf(w, b, c)];
      Deaths(es) == [] && FallRumors(es) == [c] && Transfers(es) == [] && FeatClaims(es) == []
  {
    var e := FellClaimOf(w, b, c);
    CollectOne(e, DeathOf);
    CollectOne(e, FallRumorOf);
    CollectOne(e, TransferOf);
    CollectOne(e, FeatClaimOf);
  }

  lemma SplitOne(c: Id, k: set<Id>)
    ensures Drop([c], k) == if c in k then [] else [c]
    ensures Keep([c], k) == if c in k then [c] else []
  {
    assert [c][..0] == [];
  }

  lemma CasualtyPartSplits(w: World, b: Bundle, c: Id)
    ensures var u, t := CasualtyPart(w, b, Untrusted, c).events, CasualtyPart(w, b, Trusted, c).events;
      && Deaths(u) == Drop(Deaths(t), ProtectedActors(w))
      && FallRumors(u) == Keep(Deaths(t), ProtectedActors(w))
      && FallRumors(t) == []
      && Transfers(u) == Transfers(t) == [] && FeatClaims(u) == FeatClaims(t) == []
  {
    if CasualtyPart(w, b, Trusted, c).events != [] {
      assert CasualtyPart(w, b, Trusted, c).events == [ActorDied(c)];
      DeathReads(c);
      SplitOne(c, ProtectedActors(w));
      ProtectedActorsAreProtected(w, c);
      if IsProtected(w, c) { FallReads(w, b, c); }
    }
  }

  lemma {:induction false} KeepConcat<T>(s: seq<T>, t: seq<T>, k: set<T>)
    ensures Keep(s + t, k) == Keep(s, k) + Keep(t, k)
  {
    if t == [] {
      assert s + t == s;
    } else {
      assert (s + t)[..|s + t| - 1] == s + t[..|t| - 1];
      KeepConcat(s, t[..|t| - 1], k);
    }
  }

  lemma LootPartSplits(w: World, b: Bundle, l: Loot)
    ensures var u, t := LootPart(w, b, Untrusted, l).events, LootPart(w, b, Trusted, l).events;
      && Transfers(u) == Unprotected(w, Transfers(t))
      && Deaths(u) == Deaths(t) == [] && FallRumors(u) == FallRumors(t) == []
      && FeatClaims(u) == FeatClaims(t) == []
  {
    var e := ItemTransferred(l.item, l.from, l.to);
    CollectOne(e, DeathOf);
    CollectOne(e, FallRumorOf);
    CollectOne(e, TransferOf);
    CollectOne(e, FeatClaimOf);
    assert [l][..0] == [];
  }

  // --- the two tiers ---

  lemma FeatsCarry(w: World, b: Bundle, tier: Tier)
    ensures var es := Joined(FeatParts(w, b, tier)).events;
      && Deaths(es) == [] && FallRumors(es) == [] && Transfers(es) == []
      && FeatClaims(es) == FeatClaims(Joined(FeatParts(w, b, Trusted)).events)
  {
    var parts := FeatParts(w, b, tier);
    forall i | 0 <= i < |b.feats|
      ensures Deaths(parts[i].events) == [] && FallRumors(parts[i].events) == [] && Transfers(parts[i].events) == []
      ensures FeatClaims(parts[i].events) == FeatClaims(FeatParts(w, b, Trusted)[i].events)
    {
      FeatPartCarries(w, b, tier, i);
    }
    NoneCarries(parts, DeathOf);
    NoneCarries(parts, FallRumorOf);
    NoneCarries(parts, TransferOf);
    SameCarried(parts, FeatParts(w, b, Trusted), FeatClaimOf);
  }

  lemma CasualtiesCarry(w: World, b: Bundle, tier: Tier)
    ensures var es := Joined(CasualtyParts(w, b, tier)).events;
      && Transfers(es) == [] && FeatClaims(es) == [] && (tier == Trusted ==> FallRumors(es) == [])
  {
    var parts := CasualtyParts(w, b, tier);
    forall i | 0 <= i < |b.casualties|
      ensures Transfers(parts[i].events) == [] && FeatClaims(parts[i].events) == []
      ensures tier == Trusted ==> FallRumors(parts[i].events) == []
    {
      CasualtyPartSplits(w, b, b.casualties[i]);
    }
    NoneCarries(parts, TransferOf);
    NoneCarries(parts, FeatClaimOf);
    if tier == Trusted { NoneCarries(parts, FallRumorOf); }
  }

  lemma CasualtiesSplit(w: World, b: Bundle)
    ensures var u, t := Joined(CasualtyParts(w, b, Untrusted)).events, Joined(CasualtyParts(w, b, Trusted)).events;
      && Deaths(u) == Drop(Deaths(t), ProtectedActors(w))
      && FallRumors(u) == Keep(Deaths(t), ProtectedActors(w))
  {
    var parts, others, k := CasualtyParts(w, b, Untrusted), CasualtyParts(w, b, Trusted), ProtectedActors(w);
    forall i | 0 <= i < |b.casualties|
      ensures Deaths(parts[i].events) == Drop(Deaths(others[i].events), k)
      ensures FallRumors(parts[i].events) == Keep(Deaths(others[i].events), k)
    {
      CasualtyPartSplits(w, b, b.casualties[i]);
    }
    DroppedCarried(parts, others, k);
    KeptCarried(parts, others, k);
  }

  lemma LootsCarry(w: World, b: Bundle, tier: Tier)
    ensures var es := Joined(LootParts(w, b, tier)).events;
      Deaths(es) == [] && FallRumors(es) == [] && FeatClaims(es) == []
  {
    var parts := LootParts(w, b, tier);
    forall i | 0 <= i < |b.loot|
      ensures Deaths(parts[i].events) == [] && FallRumors(parts[i].events) == [] && FeatClaims(parts[i].events) == []
    {
      LootPartSplits(w, b, b.loot[i]);
    }
    NoneCarries(parts, DeathOf);
    NoneCarries(parts, FallRumorOf);
    NoneCarries(parts, FeatClaimOf);
  }

  lemma LootsSplit(w: World, b: Bundle)
    ensures Transfers(Joined(LootParts(w, b, Untrusted)).events)
         == Unprotected(w, Transfers(Joined(LootParts(w, b, Trusted)).events))
  {
    var parts, others := LootParts(w, b, Untrusted), LootParts(w, b, Trusted);
    forall i | 0 <= i < |b.loot|
      ensures Transfers(parts[i].events) == Unprotected(w, Transfers(others[i].events))
    {
      LootPartSplits(w, b, b.loot[i]);
    }
    UnprotectedCarried(w, parts, others);
  }

  lemma ThreeCollected<T>(p: Part, q: Part, r: Part, f: Event -> seq<T>)
    ensures Collect(p.Then(q).Then(r).events, f) == Collect(p.events, f) + Collect(q.events, f) + Collect(r.events, f)
  {
    CollectConcat(p.events + q.events, r.events, f);
    CollectConcat(p.events, q.events, f);
  }

  /** Deaths and rumored falls come from the casualties, transfers from the loot, and feat claims
      from the feats. */
  lemma EventsBySection(w: World, b: Bundle, tier: Tier)
    ensures var es := Distilled(w, b, tier).events;
      && Deaths(es) == Deaths(Joined(CasualtyParts(w, b, tier)).events)
      && FallRumors(es) == FallRumors(Joined(CasualtyParts(w, b, tier)).events)
      && Transfers(es) == Transfers(Joined(LootParts(w, b, tier)).events)
      && FeatClaims(es) == FeatClaims(Joined(FeatParts(w, b, tier)).events)
  {
    var f, c, l := Joined(FeatParts(w, b, tier)), Joined(CasualtyParts(w, b, tier)), Joined(LootParts(w, b, tier));
    DistilledJoined(w, b, tier);
    FeatsCarry(w, b, tier);
    CasualtiesCarry(w, b, tier);
    LootsCarry(w, b, tier);
    ThreeCollected(f, c, l, DeathOf);
    ThreeCollected(f, c, l, FallRumorOf);
    ThreeCollected(f, c, l, TransferOf);
    ThreeCollected(f, c, l, FeatClaimOf);
    OnlyOne(Deaths(f.events), Deaths(c.events), Deaths(l.events));
    OnlyOne(FallRumors(f.events), FallRumors(c.events), FallRumors(l.events));
    OnlyOne(Transfers(f.events), Transfers(c.events), Transfers(l.events));
    OnlyOne(FeatClaims(f.events), FeatClaims(c.events), FeatClaims(l.events));
  }

  lemma OnlyOne<T>(f: seq<T>, c: seq<T>, l: seq<T>)
    ensures c == [] && l == [] ==> f + c + l == f
    ensures f == [] && l == [] ==> f + c + l == c
    ensures f == [] && c == [] ==> f + c + l == l
  {}

  /** On the same world and bundle: the untrusted run's deaths and transfers are the trusted run's,
      less those that touch protected actors; each death so removed is one rumor of a fall; and
      both record the same feats. */
  lemma CeilingOnlyDowngrades(w: World, b: Bundle)
    ensures var u, t := Distilled(w, b, Untrusted).events, Distilled(w, b, Trusted).events;
      && Deaths(u) == Drop(Deaths(t), ProtectedActors(w))
      && FallRumors(u) == Keep(Deaths(t), ProtectedActors(w)) && FallRumors(t) == []
      && Transfers(u) == Unprotected(w, Transfers(t))
      && FeatClaims(u) == FeatClaims(t)
  {
    FeatsCarry(w, b, Untrusted);
    CasualtiesSplit(w, b);
    CasualtiesCarry(w, b, Trusted);
    LootsSplit(w, b);
    EventsBySection(w, b, Untrusted);
    EventsBySection(w, b, Trusted);
  }

  // --- the receipt accounts for the report ---

  lemma RefsConcat(xs: seq<Entry>, ys: seq<Entry>, kind: Kind, d: Option<Disposition>)
    ensures Refs(xs + ys, kind, d) == Refs(xs, kind, d) + Refs(ys, kind, d)
  {
    CollectConcat(xs, ys, RefIf(kind, d));
  }

  lemma RefsOne(e: Entry, kind: Kind, d: Option<Disposition>)
    ensures Refs([e], kind, d) ==
      if e.kind == kind && (d == None || e.disposition == d.value) then [e.ref] else []
  {
    CollectOne(e, RefIf(kind, d));
  }

  lemma {:induction false} WitnessEntriesAreWitnesses(
      w: World, b: Bundle, tier: Tier, n: nat, kind: Kind, d: Option<Disposition>)
    requires n <= |b.witnesses| && kind != AWitness
    ensures Refs(WitnessEntries(w, b, tier, n), kind, d) == []
  {
    if n > 0 {
      WitnessEntriesAreWitnesses(w, b, tier, n - 1, kind, d);
      var e := Entry(AWitness, b.witnesses[n - 1],
                     if Testifies(w, b, tier, b.witnesses[n - 1]) then Applied else Dropped);
      RefsConcat(WitnessEntries(w, b, tier, n - 1), [e], kind, d);
      RefsOne(e, kind, d);
    }
  }

  function ItemsOf(ls: seq<Loot>): seq<Id> {
    if ls == [] then [] else ItemsOf(ls[..|ls| - 1]) + [ls[|ls| - 1].item]
  }

  lemma {:induction false} ItemsOfConcat(ls: seq<Loot>, ms: seq<Loot>)
    ensures ItemsOf(ls + ms) == ItemsOf(ls) + ItemsOf(ms)
  {
    if ms == [] {
      assert ls + ms == ls;
    } else {
      assert (ls + ms)[..|ls + ms| - 1] == ls + ms[..|ms| - 1];
      ItemsOfConcat(ls, ms[..|ms| - 1]);
    }
  }

  lemma FeatPartReceipt(w: World, b: Bundle, tier: Tier, i: nat, kind: Kind, d: Option<Disposition>)
    requires i < |b.feats| && kind != AWitness
    ensures var p := FeatPart(w, b, tier, i);
      && (kind != AFeat ==> Refs(p.receipt, kind, d) == [])
      && (kind == AFeat && d == Some(Applied) ==> Refs(p.receipt, kind, d) == FeatSubjects(p.events))
  {
    var actor := Resolve(w, b.feats[i].actor);
    if actor == None || actor.value !in b.participants {
      RefsOne(Entry(AFeat, b.feats[i].actor, Dropped), kind, d);
    } else {
      var e, ws := Entry(AFeat, actor.value, Applied), WitnessEntries(w, b, tier, |b.witnesses|);
      RefsConcat([e], ws, kind, d);
      RefsOne(e, kind, d);
      WitnessEntriesAreWitnesses(w, b, tier, |b.witnesses|, kind, d);
      var id := FeatClaim(b.encounter, i);
      var c := ClaimRecorded(id, Claim(b.feats[i].description, [actor.value], "unknown", "external"));
      ClaimThenBeliefs(c, id, Cascade(w.knows, Testifying(w, b, tier, |b.witnesses|)));
      CollectOne(c, SubjectsOf);
    }
  }

  lemma CasualtyPartReceipt(w: World, b: Bundle, tier: Tier, c: Id, kind: Kind, d: Option<Disposition>)
    ensures var p := CasualtyPart(w, b, tier, c);
      && (kind != ACasualty ==> Refs(p.receipt, kind, d) == [])
      && (kind == ACasualty && d == None ==> Refs(p.receipt, kind, d) == [c])
      && (kind == ACasualty && d == Some(Applied) ==> Refs(p.receipt, kind, d) == Deaths(p.events))
      && (kind == ACasualty && d == Some(Downgraded) ==> Refs(p.receipt, kind, d) == FallRumors(p.events))
  {
    var p := CasualtyPart(w, b, tier, c);
    RefsOne(p.receipt[0], kind, d);
    if p.events != [] {
      CollectOne(p.events[0], DeathOf);
      CollectOne(p.events[0], FallRumorOf);
    }
  }

  lemma LootPartReceipt(w: World, b: Bundle, tier: Tier, l: Loot, kind: Kind, d: Option<Disposition>)
    ensures var p := LootPart(w, b, tier, l);
      && (kind != ALoot ==> Refs(p.receipt, kind, d) == [])
      && (kind == ALoot && d == None ==> Refs(p.receipt, kind, d) == [l.item])
      && (kind == ALoot && d == Some(Applied) ==> Refs(p.receipt, kind, d) == ItemsOf(Transfers(p.events)))
  {
    var p := LootPart(w, b, tier, l);
    RefsOne(p.receipt[0], kind, d);
    if p.events != [] {
      CollectOne(p.events[0], TransferOf);
      assert [l][..0] == [];
    }
  }

  lemma {:induction false} ListedRefs(parts: seq<Part>, kind: Kind, refs: seq<Id>)
    requires |refs| == |parts| && forall i :: 0 <= i < |parts| ==> Refs(parts[i].receipt, kind, None) == [refs[i]]
    ensures Refs(Joined(parts).receipt, kind, None) == refs
  {
    if parts != [] {
      var n := |parts| - 1;
      ListedRefs(parts[..n], kind, refs[..n]);
      JoinedRefs(parts, kind, None);
      SplitLast(refs);
      Glued(Refs(Joined(parts).receipt, kind, None), Refs(Joined(parts[..n]).receipt, kind, None),
            Refs(parts[n].receipt, kind, None), refs[..n], [refs[n]], refs);
    }
  }

  /** Entries of one kind and disposition that name what the events of their part do. */
  lemma {:induction false} MatchedRefs(parts: seq<Part>, kind: Kind, d: Disposition, f: Event -> seq<Id>)
    requires forall p :: p in parts ==> Refs(p.receipt, kind, Some(d)) == Collect(p.events, f)
    ensures Refs(Joined(parts).receipt, kind, Some(d)) == Collect(Joined(parts).events, f)
  {
    if parts != [] {
      var init, last := parts[..|parts| - 1], parts[|parts| - 1];
      assert forall p :: p in init ==> p in parts;
      MatchedRefs(init, kind, d, f);
      JoinedRefs(parts, kind, Some(d));
      JoinedCollects(parts, f);
    }
  }

  lemma {:induction false} MatchedLoot(parts: seq<Part>)
    requires forall p :: p in parts ==> Refs(p.receipt, ALoot, Some(Applied)) == ItemsOf(Transfers(p.events))
    ensures Refs(Joined(parts).receipt, ALoot, Some(Applied)) == ItemsOf(Transfers(Joined(parts).events))
  {
    if parts != [] {
      var init, last := parts[..|parts| - 1], parts[|parts| - 1];
      assert forall p :: p in init ==> p in parts;
      MatchedLoot(init);
      JoinedRefs(parts, ALoot, Some(Applied));
      JoinedCollects(parts, TransferOf);
      ItemsOfConcat(Transfers(Joined(init).events), Transfers(last.events));
    }
  }

  lemma {:induction false} MatchedFeats(parts: seq<Part>)
    requires forall p :: p in parts ==> Refs(p.receipt, AFeat, Some(Applied)) == FeatSubjects(p.events)
    ensures Refs(Joined(parts).receipt, AFeat, Some(Applied)) == FeatSubjects(Joined(parts).events)
  {
    if parts != [] {
      var init, last := parts[..|parts| - 1], parts[|parts| - 1];
      assert forall p :: p in init ==> p in parts;
      MatchedFeats(init);
      JoinedRefs(parts, AFeat, Some(Applied));
      JoinedCollects(parts, FeatClaimOf);
      CollectConcat(FeatClaims(Joined(init).events), FeatClaims(last.events), SubjectsOf);
    }
  }

  lemma ThreeReferred(p: Part, q: Part, r: Part, kind: Kind, d: Option<Disposition>)
    ensures Refs(p.Then(q).Then(r).receipt, kind, d)
         == Refs(p.receipt, kind, d) + Refs(q.receipt, kind, d) + Refs(r.receipt, kind, d)
  {
    RefsConcat(p.receipt + q.receipt, r.receipt, kind, d);
    RefsConcat(p.receipt, q.receipt, kind, d);
  }

  lemma FeatsReferToFeats(w: World, b: Bundle, tier: Tier, kind: Kind, d: Option<Disposition>)
    requires kind != AFeat && kind != AWitness
    ensures Refs(Joined(FeatParts(w, b, tier)).receipt, kind, d) == []
  {
    forall i | 0 <= i < |b.feats| ensures Refs(FeatParts(w, b, tier)[i].receipt, kind, d) == [] {
      FeatPartReceipt(w, b, tier, i, kind, d);
    }
    NoneRefers(FeatParts(w, b, tier), kind, d);
  }

  lemma CasualtiesReferToCasualties(w: World, b: Bundle, tier: Tier, kind: Kind, d: Option<Disposition>)
    requires kind != ACasualty
    ensures Refs(Joined(CasualtyParts(w, b, tier)).receipt, kind, d) == []
  {
    forall i | 0 <= i < |b.casualties| ensures Refs(CasualtyParts(w, b, tier)[i].receipt, kind, d) == [] {
      CasualtyPartReceipt(w, b, tier, b.casualties[i], kind, d);
    }
    NoneRefers(CasualtyParts(w, b, tier), kind, d);
  }

  lemma LootsReferToLoot(w: World, b: Bundle, tier: Tier, kind: Kind, d: Option<Disposition>)
    requires kind != ALoot
    ensures Refs(Joined(LootParts(w, b, tier)).receipt, kind, d) == []
  {
    forall i | 0 <= i < |b.loot| ensures Refs(LootParts(w, b, tier)[i].receipt, kind, d) == [] {
      LootPartReceipt(w, b, tier, b.loot[i], kind, d);
    }
    NoneRefers(LootParts(w, b, tier), kind, d);
  }

  /** The references of a kind all come from that kind's section. */
  lemma RefsBySection(w: World, b: Bundle, tier: Tier, kind: Kind, d: Option<Disposition>)
    requires kind != AWitness
    ensures Refs(Distilled(w, b, tier).receipt, kind, d) ==
      if kind == AFeat then Refs(Joined(FeatParts(w, b, tier)).receipt, kind, d)
      else if kind == ACasualty then Refs(Joined(CasualtyParts(w, b, tier)).receipt, kind, d)
      else Refs(Joined(LootParts(w, b, tier)).receipt, kind, d)
  {
    var f, c, l := Joined(FeatParts(w, b, tier)), Joined(CasualtyParts(w, b, tier)), Joined(LootParts(w, b, tier));
    DistilledJoined(w, b, tier);
    ThreeReferred(f, c, l, kind, d);
    if kind != AFeat { FeatsReferToFeats(w, b, tier, kind, d); }
    if kind != ACasualty { CasualtiesReferToCasualties(w, b, tier, kind, d); }
    if kind != ALoot { LootsReferToLoot(w, b, tier, kind, d); }
    OnlyOne(Refs(f.receipt, kind, d), Refs(c.receipt, kind, d), Refs(l.receipt, kind, d));
  }

  lemma {:induction false} ItemsOfAre(ls: seq<Loot>)
    ensures |ItemsOf(ls)| == |ls| && forall i :: 0 <= i < |ls| ==> ItemsOf(ls)[i] == ls[i].item
  {
    if ls != [] { ItemsOfAre(ls[..|ls| - 1]); }
  }

  // --- the entries of the feats ---

  /** The feat's actor is known and a declared combatant. */
  predicate TakesPart(w: World, b: Bundle, i: nat)
    requires i < |b.feats|
  {
    var actor := Resolve(w, b.feats[i].actor);
    actor.Some? && actor.value in b.participants
  }

  /** Applied under its actor's id, or dropped under the name it was reported by. */
  function FeatEntry(w: World, b: Bundle, i: nat): Entry
    requires i < |b.feats|
  {
    if TakesPart(w, b, i) then Entry(AFeat, Resolve(w, b.feats[i].actor).value, Applied)
    else Entry(AFeat, b.feats[i].actor, Dropped)
  }

  function FeatEntryOf(e: Entry): seq<Entry> {
    if e.kind == AFeat then [e] else []
  }

  /** The receipt's entries for feats, in order. */
  function FeatEntries(receipt: seq<Entry>): seq<Entry> {
    Collect(receipt, FeatEntryOf)
  }

  lemma {:induction false} WitnessesAreNoFeats(w: World, b: Bundle, tier: Tier, n: nat)
    requires n <= |b.witnesses|
    ensures FeatEntries(WitnessEntries(w, b, tier, n)) == []
  {
    if n > 0 {
      WitnessesAreNoFeats(w, b, tier, n - 1);
      var e := Entry(AWitness, b.witnesses[n - 1],
                     if Testifies(w, b, tier, b.witnesses[n - 1]) then Applied else Dropped);
      CollectConcat(WitnessEntries(w, b, tier, n - 1), [e], FeatEntryOf);
      CollectOne(e, FeatEntryOf);
    }
  }

  lemma FeatPartEntry(w: World, b: Bundle, tier: Tier, i: nat)
    requires i < |b.feats|
    ensures FeatEntries(FeatPart(w, b, tier, i).receipt) == [FeatEntry(w, b, i)]
  {
    var ws := WitnessEntries(w, b, tier, |b.witnesses|);
    CollectOne(FeatEntry(w, b, i), FeatEntryOf);
    CollectConcat([FeatEntry(w, b, i)], ws, FeatEntryOf);
    WitnessesAreNoFeats(w, b, tier, |b.witnesses|);
  }

  lemma JoinedEntries(parts: seq<Part>)
    requires parts != []
    ensures FeatEntries(Joined(parts).receipt)
         == FeatEntries(Joined(parts[..|parts| - 1]).receipt) + FeatEntries(parts[|parts| - 1].receipt)
  {
    CollectConcat(Joined(parts[..|parts| - 1]).receipt, parts[|parts| - 1].receipt, FeatEntryOf);
  }

  lemma {:induction false} ListedEntries(parts: seq<Part>, entries: seq<Entry>)
    requires |entries| == |parts| && forall i :: 0 <= i < |parts| ==> FeatEntries(parts[i].receipt) == [entries[i]]
    ensures FeatEntries(Joined(parts).receipt) == entries
  {
    if parts != [] {
      var n := |parts| - 1;
      ListedEntries(parts[..n], entries[..n]);
      JoinedEntries(parts);
      SplitLast(entries);
      Glued(FeatEntries(Joined(parts).receipt), FeatEntries(Joined(parts[..n]).receipt),
            FeatEntries(parts[n].receipt), entries[..n], [entries[n]], entries);
    }
  }

  lemma {:induction false} NoEntries(parts: seq<Part>)
    requires forall p :: p in parts ==> FeatEntries(p.receipt) == []
    ensures FeatEntries(Joined(parts).receipt) == []
  {
    if parts != [] {
      var init, last := parts[..|parts| - 1], parts[|parts| - 1];
      assert forall p :: p in init ==> p in parts;
      NoEntries(init);
      JoinedEntries(parts);
    }
  }

  /** The entries of the feats as they were reported. */
  function FeatList(w: World, b: Bundle): seq<Entry> {
    seq(|b.feats|, i requires 0 <= i < |b.feats| => FeatEntry(w, b, i))
  }

  lemma FeatsEntered(w: World, b: Bundle, tier: Tier)
    ensures FeatEntries(Joined(FeatParts(w, b, tier)).receipt) == FeatList(w, b)
  {
    var feats, entries := FeatParts(w, b, tier), FeatList(w, b);
    forall i | 0 <= i < |feats| ensures FeatEntries(feats[i].receipt) == [entries[i]] {
      FeatPartEntry(w, b, tier, i);
    }
    ListedEntries(feats, entries);
  }

  lemma CasualtiesEnterNone(w: World, b: Bundle, tier: Tier)
    ensures FeatEntries(Joined(CasualtyParts(w, b, tier)).receipt) == []
  {
    var casualties := CasualtyParts(w, b, tier);
    forall i | 0 <= i < |casualties| ensures FeatEntries(casualties[i].receipt) == [] {
      CollectOne(casualties[i].receipt[0], FeatEntryOf);
    }
    NoEntries(casualties);
  }

  lemma LootEntersNone(w: World, b: Bundle, tier: Tier)
    ensures FeatEntries(Joined(LootParts(w, b, tier)).receipt) == []
  {
    var loot := LootParts(w, b, tier);
    forall i | 0 <= i < |loot| ensures FeatEntries(loot[i].receipt) == [] {
      CollectOne(loot[i].receipt[0], FeatEntryOf);
    }
    NoEntries(loot);
  }

  lemma FeatEntriesBySection(w: World, b: Bundle, tier: Tier)
    ensures FeatEntries(Distilled(w, b, tier).receipt) == FeatList(w, b)
  {
    var f, c, l := Joined(FeatParts(w, b, tier)), Joined(CasualtyParts(w, b, tier)), Joined(LootParts(w, b, tier));
    DistilledJoined(w, b, tier);
    FeatsEntered(w, b, tier);
    CasualtiesEnterNone(w, b, tier);
    LootEntersNone(w, b, tier);
    CollectConcat(f.receipt + c.receipt, l.receipt, FeatEntryOf);
    CollectConcat(f.receipt, c.receipt, FeatEntryOf);
  }

  /** Every feat, casualty and loot item has exactly one entry, in order; a feat's is applied under
      the id of its actor or dropped under the name it was reported by. */
  lemma ReceiptIsComplete(w: World, b: Bundle, tier: Tier)
    ensures var r := Distilled(w, b, tier).receipt;
      && FeatEntries(r) == FeatList(w, b)
      && Refs(r, ACasualty, None) == b.casualties
      && Refs(r, ALoot, None) == ItemsOf(b.loot)
  {
    FeatEntriesBySection(w, b, tier);
    RefsBySection(w, b, tier, ACasualty, None);
    RefsBySection(w, b, tier, ALoot, None);
    CasualtiesListed(w, b, tier);
    LootListed(w, b, tier);
  }

  lemma CasualtiesListed(w: World, b: Bundle, tier: Tier)
    ensures Refs(Joined(CasualtyParts(w, b, tier)).receipt, ACasualty, None) == b.casualties
  {
    forall i | 0 <= i < |b.casualties|
      ensures Refs(CasualtyParts(w, b, tier)[i].receipt, ACasualty, None) == [b.casualties[i]]
    {
      CasualtyPartReceipt(w, b, tier, b.casualties[i], ACasualty, None);
    }
    ListedRefs(CasualtyParts(w, b, tier), ACasualty, b.casualties);
  }

  lemma LootListed(w: World, b: Bundle, tier: Tier)
    ensures Refs(Joined(LootParts(w, b, tier)).receipt, ALoot, None) == ItemsOf(b.loot)
  {
    ItemsOfAre(b.loot);
    forall i | 0 <= i < |b.loot| ensures Refs(LootParts(w, b, tier)[i].receipt, ALoot, None) == [ItemsOf(b.loot)[i]] {
      LootPartReceipt(w, b, tier, b.loot[i], ALoot, None);
    }
    ListedRefs(LootParts(w, b, tier), ALoot, ItemsOf(b.loot));
  }

  lemma CasualtiesMatch(w: World, b: Bundle, tier: Tier)
    ensures var p := Joined(CasualtyParts(w, b, tier));
      && Refs(p.receipt, ACasualty, Some(Applied)) == Deaths(p.events)
      && Refs(p.receipt, ACasualty, Some(Downgraded)) == FallRumors(p.events)
  {
    var parts := CasualtyParts(w, b, tier);
    forall i | 0 <= i < |b.casualties|
      ensures Refs(parts[i].receipt, ACasualty, Some(Applied)) == Deaths(parts[i].events)
      ensures Refs(parts[i].receipt, ACasualty, Some(Downgraded)) == FallRumors(parts[i].events)
    {
      CasualtyPartReceipt(w, b, tier, b.casualties[i], ACasualty, Some(Applied));
      CasualtyPartReceipt(w, b, tier, b.casualties[i], ACasualty, Some(Downgraded));
    }
    MatchedRefs(parts, ACasualty, Applied, DeathOf);
    MatchedRefs(parts, ACasualty, Downgraded, FallRumorOf);
  }

  lemma LootMatches(w: World, b: Bundle, tier: Tier)
    ensures var p := Joined(LootParts(w, b, tier));
      Refs(p.receipt, ALoot, Some(Applied)) == ItemsOf(Transfers(p.events))
  {
    forall i | 0 <= i < |b.loot|
      ensures var p := LootParts(w, b, tier)[i]; Refs(p.receipt, ALoot, Some(Applied)) == ItemsOf(Transfers(p.events))
    {
      LootPartReceipt(w, b, tier, b.loot[i], ALoot, Some(Applied));
    }
    MatchedLoot(LootParts(w, b, tier));
  }

  lemma FeatsMatch(w: World, b: Bundle, tier: Tier)
    ensures var p := Joined(FeatParts(w, b, tier)); Refs(p.receipt, AFeat, Some(Applied)) == FeatSubjects(p.events)
  {
    forall i | 0 <= i < |b.feats|
      ensures var p := FeatParts(w, b, tier)[i]; Refs(p.receipt, AFeat, Some(Applied)) == FeatSubjects(p.events)
    {
      FeatPartReceipt(w, b, tier, i, AFeat, Some(Applied));
    }
    MatchedFeats(FeatParts(w, b, tier));
  }

  /** The receipt claims exactly what was emitted: applied casualties are the deaths, downgraded
      ones the rumored falls, applied loot the transfers, and applied feats the feat claims' own
      subjects, each in order. */
  lemma ReceiptMatchesEvents(w: World, b: Bundle, tier: Tier)
    ensures var es, r := Distilled(w, b, tier).events, Distilled(w, b, tier).receipt;
      && Refs(r, ACasualty, Some(Applied)) == Deaths(es)
      && Refs(r, ACasualty, Some(Downgraded)) == FallRumors(es)
      && Refs(r, ALoot, Some(Applied)) == ItemsOf(Transfers(es))
      && Refs(r, AFeat, Some(Applied)) == FeatSubjects(es)
  {
    EventsBySection(w, b, tier);
    RefsBySection(w, b, tier, AFeat, Some(Applied));
    RefsBySection(w, b, tier, ACasualty, Some(Applied));
    RefsBySection(w, b, tier, ACasualty, Some(Downgraded));
    RefsBySection(w, b, tier, ALoot, Some(Applied));
    CasualtiesMatch(w, b, tier);
    LootMatches(w, b, tier);
    FeatsMatch(w, b, tier);
  }
}
