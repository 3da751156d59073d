# Uro: a verified model

Uro is an event-sourced world engine. Players act in turns at a shared table, every turn commits
events to a branch, reported outcomes are distilled into more events, and worlds are exported as
hash-chained bundles. Around the engine stand a server that fans messages out to live clients and a
handful of games. This project models the state machines and transformations at the heart of that
system in Dafny and proves what they promise, for every input and every run. Nothing here needs the
database, the network or a language model.

`dafny verify dfyconfig.toml` checks the whole project.

## The modules

- **Turns at the table.** `TurnRing` is one campaign's ring, turn index and connection counts as a
  value; `TurnOrder`, `SeatOrder` and `Overtaking` prove what whole runs of joins, leaves and commits
  guarantee, and exactly when a member can be overtaken, and `Reseating` what is left of it when every
  join brings another seat list;
  `Ballots` and `VoteTable` do the same for voting. `Session` holds the arbiters, dictionaries
  updated in place, each method proved to take exactly the step of the value model.
- **The skirmish.** `Grid`, `Pathing` and `Walking` are the board, the breadth-first distance field
  and the walk down it. `Skirmish`, `Tactics`, `Rounds` and `Turns` say what one blow, one action,
  one round and a whole battle may do under the dice that were rolled, and `CombatRules` what that comes
  to for each unit; `Battle` is the engine itself,
  units updated in place under one stream of dice, proved to play by those rules.
- **Outcome distillation.** `Rumors` (belief spreading), `Outcomes` (the distillation and the
  projections its events change), `TrustTiers` (untrusted against trusted), `Replay` (reporting the
  same outcome again) and `Fates` (who dies, believes and receives what).
- **Export bundles.** `CommitHash`, `Chain`, `Integrity`, `Tampering`, `Manifest`, `Bundles` and `Ambiguity`.
- **The crew protocol.** `Crew` is the interleaving of scripted players, director, clients and server
  as one step relation; `CrewSafety` and `CrewProgress` are about every interleaving.
- **The live feed.** `Announcements` is the bounded table of who was told what; `LiveFeed` the steps
  by which played beats and feed messages reach campaigns.
- **The realm ledger.** `Realm`, `RealmAccounts`, `RealmRuns` and `WarRules` as values, `Ledger` in place.
- **Tokens and queues.** `Tokens` (a cache over the store, every operation suspended between writing the
  one and writing the other) and `Hub` (ordered fan-out).
- **The outbox relay** in `Outbox`, and **the codex** in `CodexText` and `Codex`.
- `Common` and `StableSort` hold what several of these share: sequences without repeats, Python's
  `index`, `remove`, string order and stable `sorted`.

## How the model is set up

- Dice are arbitrary in-range values, and every roll is written to a log, so that a battle or a realm
  tick is stated as a function of exactly the dice it consumed.
- A hash function is a parameter. No total function into strings of one length is free of collisions,
  so the theorems about bundles ask only that the texts actually fed to it do not collide; a digest is
  a string of 64 characters without a brace. An event is its canonical JSON, taken to be one balanced
  object.
- The crew and the live feed are step relations whose moves may interleave freely. Publishing
  `beat_committed` and passing the turn are one step, because publishing only puts on queues and
  nothing suspends in between. A timeout or an unexpected frame is a move that stops the run.
- Confidence, intervals and waits are reals. Integers are unbounded, as in Python.
- Units in a battle are addressed by their place in the unit list; a goal set is a set.
- The projector's rules for the events a distillation emits are part of the model: a death marks an
  actor dead, a transfer moves an item only from the owner it names, claims and beliefs are upserted.

## Promises that hold only under a condition

Each of these has its exact condition proved, for every input.

- After a member ends its turn, somebody who stays connected can be overtaken by it exactly when the
  member has no seat, sits behind the other in the ring, and is not last
  (`Overtaking.OvertakenIff`): it drops out and rejoins at the end of the ring.
- A vote round can be completed by other members with a connected member left out exactly when some
  voter is not in the ring (`VoteTable.LeftOutIffOutsider`). `cast_vote` does not check that.
- Reporting an outcome twice changes nothing exactly when no allowed line hands an item on from whoever
  the first report leaves it with (`Replay.ConvergesIffSettled`). A bundle that lists each item at most
  once always converges; packages/uro-core/uro_core/_distill_core.py:134 promises it of every bundle.
- The stored hashes of an accepted bundle pin every event of every commit exactly when every commit is
  live: the last of its id, or read as a parent by a live one before it is overwritten
  (`Tampering.PinnedIffAllLive`). With distinct ids all are.
- Some bundle of another structure has the same manifest text exactly when the bundle has any commit,
  branch or marker, or its name reads as the text of one (`Ambiguity.AnotherReadsTheSameIff`), because
  the fields are not escaped; verification accepts such a bundle (`Ambiguity.ForgedIsAccepted`). The
  comment at packages/uro-core/uro_core/export.py:113-114 says the digest binds the name. Between bundles
  without `|` in their fields it does: equal texts are equal structures, once an id spelled "None" is
  taken for an absent one (`Ambiguity.TextIsPlainStructure`, with `Manifest.NoneIsAmbiguous` for an
  instance), and `Bundles.ManifestPinsTheWorld` is about those.
- The announcement table remembers exactly what entered it with fewer than `cap` announcements since
  that brought a commit not then in it (`Announcements.ToldIff`). The comment at
  packages/uro-server/uro_server/app.py:182-187 speaks of the most recent commits, but announcing one
  again does not make it newer (`Announcements.AnnouncingAgainDoesNotRefresh`).
- The live feed tells nobody of a commit twice exactly when every step is safe, in runs that finish
  what they begin (`LiveFeed.ToldOnceIffSafe`); after an unsafe step, finishing tells somebody twice
  (`LiveFeed.UnsafeTellsTwice`). `LiveFeed.FeedOvertakesHook`, `LiveFeed.ForgottenIsToldAgain` and
  `LiveFeed.OverlappingBeats` are the three ways a step is unsafe.
- Each beat's frame carries its own commit exactly when no two beats of a campaign overlap between hook
  and frame (`LiveFeed.OwnToldIffInTurn`): a frame carries the campaign's latest commit, and the default
  arbiter (packages/uro-server/uro_server/app.py:725) admits everybody.
- The token cache ends up as the store exactly when, for each key, the last store step and the last
  cache step belong to the same operation, or neither to its minting (`Tokens.AgreesIffLastTogether`). A
  minting overtaken by a revocation or a removal while it waits leaves the process letting the token in
  until it is restarted (`Tokens.OvertakenMint`).
- A codex entry reads back as itself exactly when its loop's name has no " at segment " in it and does
  not end with " at segment" (`CodexText.RoundTrip`).

## Model

| member | source | states |
|---|---|---|
| `TurnOrder.ReachableIsSound` | packages/uro-core/uro_core/session.py:107-169 | After any run of joins, leaves and commits the ring has no repeats, is exactly the participants with a live connection, is in seat order, and the turn index is in range |
| `TurnOrder.JoinKeepsWellFormed` | packages/uro-core/uro_core/session.py:119-139 | A join keeps ring and connections in step whatever seat list it brings and whatever order the ring was in |
| `TurnOrder.JoinKeepsHolder` | packages/uro-core/uro_core/session.py:119-139 | A join never moves the turn, even when it re-sorts the ring; the first to arrive takes it |
| `TurnOrder.LeaveKeepsOrPassesTurn` | packages/uro-core/uro_core/session.py:141-164 | A departure keeps the holder, unless the holder closed its last connection: then the turn goes to the cyclic successor, or to nobody when the ring empties |
| `TurnOrder.TurnStaysOrAdvances` | packages/uro-core/uro_core/session.py:119-169 | No step moves the turn further than to the next in the ring, and every commit moves it exactly there |
| `TurnOrder.BoundedWait` | packages/uro-core/uro_core/session.py:107-169 | Whoever stays connected holds the turn by the time the commits reach its cyclic distance plus the number of newcomers that arrived, whatever else joins and leaves |
| `TurnOrder.NoOvertaking` | packages/uro-core/uro_core/session.py:107-169 | After a member ends its turn, everyone else who stays connected holds the turn before that member, staying connected too, holds it again |
| `Reseating.ReachableUnderAnySeats` | packages/uro-core/uro_core/session.py:119-164 | When each join brings a seat list of its own, the ring is still exactly the connected without repeats, with its index in range, and in the order of the list its latest newcomer brought |
| `Reseating.BoundedWaitUnderAnySeats` | packages/uro-core/uro_core/session.py:119-169 | And whoever stays connected holds the turn by the time the commits reach its cyclic distance plus, for each newcomer, one if the ring was in the order of the list it brought and the size of the ring if it was not |
| `Overtaking.SeatedNoOvertaking` | packages/uro-core/uro_core/session.py:107-169 | With a seat, the member who ended its turn need not stay connected: every other member who does, seated or not, holds the turn first |
| `SeatOrder.RingIsSeatsThenJoinOrder` | packages/uro-core/uro_core/session.py:119-164 | Under distinct seats the ring after any history is the seat list restricted to the connected, followed by the unseated in join order |
| `SeatOrder.SameConnectedSameRing` | packages/uro-core/uro_core/session.py:119-164 | Two histories that leave the same seated participants connected leave the same ring, so connect order cannot be observed |
| `Overtaking.OvertakenIff` | packages/uro-core/uro_core/session.py:107-169 | For every sound roster and seat list: some continuation in which p stays connected lets h, who ends its turn, hold it again before p does if and only if h has no seat, p is in front of h in the ring, and h is not last |
| `Overtaking.ReconnectingOvertakes` | packages/uro-core/uro_core/session.py:119-169 | And then the run that does it: h closes its connections, joins at the end of the ring, and commits bring the turn there |
| `Session.PartyArbiter.constructor` | packages/uro-core/uro_core/session.py:99-105 | A new arbiter has an empty roster for every campaign |
| `Session.PartyArbiter.Admit` | packages/uro-core/uro_core/session.py:113-117 | Admitted exactly when nobody is seated or the participant holds the turn; otherwise told to hold, or queued as a proposal. Who is admitted is the same for both arbiters |
| `Session.PartyArbiter.NoteJoined` | packages/uro-core/uro_core/session.py:119-139 | The three dictionaries take exactly the join step for this campaign; every other campaign is untouched and the invariant is kept |
| `Session.PartyArbiter.NoteLeft` | packages/uro-core/uro_core/session.py:141-164 | Exactly the departure step, including unknown participants and remaining connections; other campaigns untouched, invariant kept |
| `Session.PartyArbiter.BeatCommitted` | packages/uro-core/uro_core/session.py:166-169 | Exactly one rotation of this campaign; other campaigns untouched, invariant kept |
| `Ballots.DecidedIffStrictPlurality` | packages/uro-core/uro_core/session.py:230-243 | A choice is decided if and only if everybody connected is counted in and it has strictly more ballots than every other choice |
| `Ballots.OrderDoesNotMatter` | packages/uro-core/uro_core/session.py:230-247 | Two rounds with the same choices decide alike, whoever cast them and in whatever order |
| `VoteTable.StepKeepsTableInv` | packages/uro-core/uro_core/session.py:218-268 | Every vote by a member, join, commit, and departure followed by its re-check keeps: voters are in the ring, each votes once, and no stored round is both complete and decidable |
| `VoteTable.ReachableTable` | packages/uro-core/uro_core/session.py:218-268 | The same after whole runs |
| `VoteTable.CompleteIffAllVoted` | packages/uro-core/uro_core/session.py:230-243 | So the comparison of two counts means what it is for: complete exactly when somebody is connected and every one of them has voted |
| `VoteTable.LeftOutIffOutsider` | packages/uro-core/uro_core/session.py:230-247 | A connected member who has not voted can be left out, the votes of other members completing the round, if and only if some voter is not in the ring |
| `VoteTable.OutsiderCompletesRound` | packages/uro-core/uro_core/session.py:230-247 | As it happens: an outsider's ballot, which `cast_vote` accepts, completes a round in which a connected member has not voted |
| `VoteTable.VoteKeepsBallots` | packages/uro-core/uro_core/session.py:230-247 | At any table a vote leaves every voter's last ballot there, unless it puts a choice strictly ahead in a complete round; then none |
| `VoteTable.OpenRoundHoldsLastVotes` | packages/uro-core/uro_core/session.py:230-247 | Through any run of members' votes that decides nothing the ballots are each voter's last vote, and of the others the one that was there |
| `VoteTable.ChangedVoteDecides` | packages/uro-core/uro_core/session.py:230-247 | So a tie is not final: the next vote that puts some choice strictly ahead in a complete round decides for it, and no other vote does |
| `VoteTable.TieThenDecided` | packages/uro-core/uro_core/session.py:230-247 | Two who differ tie, both ballots stay, and when one changes to the other's choice the round is decided for it |
| `Session.Decision` | packages/uro-core/uro_core/session.py:230-243 | Going by the two foremost counts of the ranked tally returns a choice if and only if the round is complete and that choice has strictly more ballots than every other |
| `Session.VoteArbiter.TallyAndDecide` | packages/uro-core/uro_core/session.py:230-243 | The round is cleared when decided and every ballot stays when not, complete or tied; the tally and decision returned are those of the round before; other campaigns untouched |
| `Session.VoteArbiter.CastVote` | packages/uro-core/uro_core/session.py:245-247 | When nothing is decided the stored ballots are exactly the one just cast and every other voter's earlier one; when something is, none are left; a member's vote keeps the invariant, an outsider's is recorded as well |
| `Session.VoteArbiter.ResolvePending` | packages/uro-core/uro_core/session.py:249-256 | There is an outcome exactly when the pending round is decided; without one no ballot is lost, with one none is left |
| `Session.VoteArbiter.NoteLeft` | packages/uro-core/uro_core/session.py:258-268 | The departure step, and no ballot is lost but that of the participant, if it is no longer in the ring |
| `Session.VoteArbiter.Disconnect` | packages/uro-server/uro_server/app.py:2598-2617 | A closed connection followed by the re-check leaves no round both complete and decidable; without an outcome no ballot is lost but that of the participant who is gone |
| `Grid.LocalShapeIsExact` | examples/games/ironwake/game/battle.py:110-130 | A field whose entries are grounded in goals and closed under free neighbours holds exactly the tiles that can reach a usable goal, each with its least number of steps over all paths |
| `Pathing.SeedGoals` | examples/games/ironwake/game/battle.py:114-119 | The usable goals are queued at distance 0; goals off the board, in walls or taken are dropped |
| `Pathing.ExpandFirst` | examples/games/ironwake/game/battle.py:120-129 | One expansion keeps the search invariant, loses no reached tile, and reaches a new one or shortens the queue |
| `Pathing.DistanceField` | examples/games/ironwake/game/battle.py:110-130 | The breadth-first search terminates with the exact distance field, for every board, occupancy and goal set |
| `Walking.BestNeighbour` | examples/games/ironwake/game/battle.py:143-153 | The four-way look-around picks the earliest direction that leads one step closer, or nothing |
| `Walking.NorthEastSouthWest` | examples/games/ironwake/game/battle.py:61-62 | That is north if it is a step closer, else east, else south, else west |
| `Walking.WalkDescends` | examples/games/ironwake/game/battle.py:140-159 | A walk of n steps down a field from distance d ends at distance max(0, d - n) |
| `Walking.StepToward` | examples/games/ironwake/game/battle.py:132-159 | A mover at walking distance d ends at distance max(0, d - move) on a free passable tile, and does not move when no goal can be reached |
| `Skirmish.FreshFieldIsSound` | examples/games/ironwake/game/battle.py:66-87 | Living, unbloodied units on distinct passable tiles start with books that balance |
| `Skirmish.AttackedKeepsSound` | examples/games/ironwake/game/battle.py:163-202 | An attack on a foe, hit or miss, wound or kill, keeps everything that always holds: distinct passable tiles, hp between 0 and full with life exactly hp above 0, casualties without repeats and exactly the dead, blows for exactly the casualties and across team lines, kill counts equal to credited blows |
| `Skirmish.SlainKeepsSound` | examples/games/ironwake/game/battle.py:204-213 | So does a death, to a foe or to the site |
| `Tactics.NearestEnemyIsNearest` | examples/games/ironwake/game/battle.py:104-108 | The chosen target is a foe on the board and no foe is nearer, or as near with a smaller uid |
| `CombatRules.StrikesByMelee` | examples/games/ironwake/game/battle.py:163-189 | Next to its target an unrallied attacker without a flank hits if and only if the d20 and its melee score reach 10 and the armour, cover or no cover |
| `CombatRules.ShootsByRanged` | examples/games/ironwake/game/battle.py:163-189 | Further off it is the ranged score, and a target in cover takes four more, except from a crossbow |
| `CombatRules.NeedIs` | examples/games/ironwake/game/battle.py:163-189 | Each point of rally lowers the least die that hits by one, and a skirmisher needs three less if and only if another of its side on the board stands next to the target |
| `CombatRules.AttackLeaves` | examples/games/ironwake/game/battle.py:190-213 | The rally is spent either way; a miss does nothing else; a hit takes the damage die and bonus, at least one; a target with no more than that dies, is listed last, and its killer is named and credited; nobody else changes |
| `CombatRules.WorstHurtIsWorst` | examples/games/ironwake/game/battle.py:253-262 | Whom a sawbones patches is below half strength next to it, and nobody such has fewer hit points, or as few with a smaller uid |
| `CombatRules.SawbonesPatches` | examples/games/ironwake/game/battle.py:253-266 | With foes about and such an ally it patches that one and does nothing else: a d8, capped at full strength |
| `CombatRules.MovesIntoRange` | examples/games/ironwake/game/battle.py:268-277 | In range a unit stays; else it ends on a free tile, as near by walking to one from which its target is in range as its move allows, and on such a tile if its move suffices |
| `CombatRules.OthersMoveAndStrike` | examples/games/ironwake/game/battle.py:268-281 | Everybody else with foes about moves, nothing else changing, and strikes from there at whoever is nearest then |
| `CombatRules.StrikeMeans` | examples/games/ironwake/game/battle.py:279-295 | The strike is the attack when that foe is in range; else a sergeant gives the ally beside it two points of rally; else nothing |
| `CombatRules.RalliedIsFirst` | examples/games/ironwake/game/battle.py:283-295 | The rallied ally is the first by uid of those on the board next to the sergeant |
| `CombatRules.FleesOnSix` | examples/games/ironwake/game/battle.py:217-243 | A unit rolls for morale if and only if fewer than half of its side's starting number stand, no bannerman of its side stands within two tiles, and it is not the captain; it flees if and only if it rolls six or less |
| `CombatRules.CountTeamIsSize` | examples/games/ironwake/game/battle.py:78-81 | A side's starting number is how many units it has |
| `CombatRules.TurnIs` | examples/games/ironwake/game/battle.py:310-320 | A turn is at most one morale die, and then flight and nothing else, or the action with the dice that follow |
| `CombatRules.RoundStopsAtOnce` | examples/games/ironwake/game/battle.py:310-320 | A round's turns go in order to the last unit, unless one by a unit on the board leaves a side with nobody there: that is then the last |
| `CombatRules.BattleStopsAtOnce` | examples/games/ironwake/game/battle.py:308-342 | Every round but the first starts from the last one's scripted endings, with both sides standing |
| `CombatRules.RoundEndIs` | examples/games/ironwake/game/battle.py:321-342 | The end of a round unit by unit: the company's last stander facing enemies is credited; the enemies run exactly if it is late enough, the objective is set and company is within a tile of it; else everybody left dies by nobody's hand, listed in order, exactly if the collapse is due and both sides stand |
| `Tactics.ActKeepsSound` | examples/games/ironwake/game/battle.py:247-295 | Whatever a unit does on its turn and however its dice fall, the field stays sound, and the actor and the sides it does not fight are as the end of a battle needs them |
| `Tactics.ActorRemains` | examples/games/ironwake/game/battle.py:311-320 | An action never empties the field, since the unit that acted is still there |
| `Tactics.OneFleeingLeavesOthers` | examples/games/ironwake/game/battle.py:313-317 | While both sides stand, one unit fleeing leaves somebody standing |
| `Rounds.RoundEndEmptyIffCollapse` | examples/games/ironwake/game/battle.py:321-342 | A round that somebody survives ends with nobody left exactly when the site collapses; from the collapse round on, every round ends the battle; the books still balance |
| `Rounds.RoundEndExtends` | examples/games/ironwake/game/battle.py:321-342 | The end of a round only appends to the casualty list |
| `Battle.Unit.constructor` | examples/games/ironwake/game/units.py:139-160 | A unit given no hit points starts at full strength, alive and on the board |
| `Battle.SurvivorsAreTheLiving` | examples/games/ironwake/game/battle.py:355 | The survivors are exactly the units alive, fled ones included |
| `Battle.Battle.constructor` | examples/games/ironwake/game/battle.py:66-87 | Sets up the field as given, counts each side's strength, and orders the units, a permutation of all of them, by falling initiative, ties by uid |
| `Battle.Battle.Kill` | examples/games/ironwake/game/battle.py:204-213 | Exactly the death step: the victim, its casualty entry, its blow, and the killer's count, nothing else |
| `Battle.Battle.Attack` | examples/games/ironwake/game/battle.py:163-202 | The new state is the attack rule's under the dice rolled: d20 against armour with the flank, cover, aimed-shot and rally modifiers, the damage die only on a hit, the rally bonus spent either way |
| `Battle.Battle.MoveIntoRange` | examples/games/ironwake/game/battle.py:268-277 | Only the mover's position changes: to a free tile, down the exact field of the tiles in range of the target |
| `Battle.Battle.Strike` | examples/games/ironwake/game/battle.py:279-295 | After moving: the attack if a foe is in range, else a sergeant's rally, else nothing |
| `Battle.Battle.Patch` | examples/games/ironwake/game/battle.py:253-266 | A d8 of healing, capped at full strength |
| `Battle.Battle.Act` | examples/games/ironwake/game/battle.py:247-297 | One whole action is a step of the rules under exactly the dice it rolled, and keeps the field sound |
| `Battle.Battle.MoraleCheck` | examples/games/ironwake/game/battle.py:217-243 | Rolls only when the team is broken and no banner holds, breaks exactly on the rule's failure, and keeps the field sound |
| `Battle.Battle.TakeTurn` | examples/games/ironwake/game/battle.py:313-320 | A unit on the board breaks and flees or stands and acts, by the rules under its dice; while both sides stood, somebody still does |
| `Battle.Battle.PlayTurns` | examples/games/ironwake/game/battle.py:310-320 | The turns of a round go in initiative order, skip who is off the board, and stop at the first turn that leaves a side gone; the dice log is the concatenation of the turns' dice |
| `Battle.Battle.CreditLoneStand` | examples/games/ironwake/game/battle.py:321-324 | A lone member of the company facing enemies is credited with the round, nobody else |
| `Battle.Battle.MeltAway` | examples/games/ironwake/game/battle.py:325-335 | Every enemy on the board flees and nothing else changes |
| `Battle.Battle.Collapse` | examples/games/ironwake/game/battle.py:336-340 | Everyone on the board dies to the site, in list order |
| `Battle.Battle.CloseRound` | examples/games/ironwake/game/battle.py:321-342 | The scripted endings in their order: lone stand, hold, collapse; reports whether the site came down |
| `Battle.Battle.PlayRound` | examples/games/ironwake/game/battle.py:308-342 | A round is its turns and then its scripted endings, and after the collapse round nothing is left to fight |
| `Battle.Battle.Fight` | examples/games/ironwake/game/battle.py:305-342 | Rounds follow each other from where the last ended, between 1 and 100 of them, and stop early exactly when a side is gone |
| `Battle.Battle.Run` | examples/games/ironwake/game/battle.py:302-375 | A whole battle, however the dice fall, is a course of rounds by the rules under exactly the dice rolled; won if and only if at the end company and no enemy is on the board, lost if and only if enemy and no company, a wipe if neither, a draw if both; at most 100 rounds, a draw only at 100; a collapse round within the cap bounds the length and excludes a draw; between standing sides a wipe exactly when the site collapsed; casualties and survivors divide the units |
| `Rumors.CascadeIsTree` | packages/uro-core/uro_core/engines/actor.py:25-84 | A cascade is a finite tree rooted at the witnesses: nobody hears twice, every hearer has a source one hop nearer who knows them, and nothing is believed below the floor or beyond four hops |
| `Rumors.HeardIffReachable` | packages/uro-core/uro_core/engines/actor.py:42-84 | For every hop that is neither beyond the last nor below the floor: somebody hears within that many hops if and only if a witness is at most that many acquaintances away, so everybody reachable hears, and at the least hop |
| `Rumors.FirstHearerWins` | packages/uro-core/uro_core/engines/actor.py:66-82 | Everybody who is told is told by the earliest hearer who knows them |
| `Rumors.ConfidenceFades` | packages/uro-core/uro_core/engines/actor.py:30-71 | A witness believes at 0.9, their acquaintances at 0.495, theirs at 0.272, and nobody after that |
| `Outcomes.WitnessLoop` | packages/uro-core/uro_core/_distill_core.py:174-186 | Who testifies: exactly the reported witnesses in the declared cast, not reported as casualties, known, and not protected; each reported witness gets one receipt entry, in order |
| `Outcomes.Distill` | packages/uro-core/uro_core/_distill_core.py:124-256 | The three loops emit exactly the feats', casualties' and loot's events and receipt entries in order, all read off the world as it was |
| `Fates.FeatClaimedIff` | packages/uro-core/uro_core/_distill_core.py:158-175 | A feat is claimed if and only if its reference names, by id or else by name, a declared combatant; as testimony about that actor, truth unknown |
| `Fates.BelievesIff` | packages/uro-core/uro_core/_distill_core.py:176-189 | Within any believable number of hops somebody is made to believe a feat if and only if it is a declared combatant's and they are at most so many acquaintances away from a reported witness who is declared, known, no casualty and not shielded |
| `Fates.BelievesOnce` | packages/uro-core/uro_core/_distill_core.py:187-189 | Nobody is made to believe a claim twice, or beyond the last believable hop |
| `Fates.BelievedAfterReport` | packages/uro-core/uro_core/_distill_core.py:176-189 | After the report those word reaches believe it, at the least possible hop; every other belief in it is as before |
| `Fates.DiesIff` | packages/uro-core/uro_core/_distill_core.py:191-207 | A death is committed if and only if the casualty is declared, known, alive, and not shielded from this tier |
| `Fates.SaidToHaveFallenIff` | packages/uro-core/uro_core/_distill_core.py:208-227 | A shielded one is instead said to have fallen, in testimony that names it |
| `Fates.DeadAfterReportIff` | packages/uro-core/uro_core/_distill_core.py:191-227 | After the report exactly those are dead who were, or whose death was committed |
| `Fates.TransferIff` | packages/uro-core/uro_core/_distill_core.py:229-254 | An item is handed over if and only if its owner, who is declared, is reported to lose it to somebody declared and no casualty, and neither is shielded |
| `TrustTiers.CeilingOnlyDowngrades` | packages/uro-core/uro_core/_distill_core.py:90-256 | On one world and bundle the untrusted run's deaths and transfers are the trusted run's filtered to unprotected actors, each death removed is one fell rumor in order, the trusted run has none, and feat claims coincide |
| `TrustTiers.ReceiptIsComplete` | packages/uro-core/uro_core/_distill_core.py:135-256 | The receipt's feat entries are, in order, one for each feat: applied under the resolved actor's id when that is a declared combatant, else dropped under the reported name; one entry for each casualty and loot item, in order |
| `TrustTiers.ReceiptMatchesEvents` | packages/uro-core/uro_core/_distill_core.py:135-256 | The receipt claims what was emitted, each in order: applied casualties are the deaths, downgraded ones the fell rumors, applied loot the transferred items, applied feats the subjects of the feat claims |
| `Replay.RecordsAreInForce` | packages/uro-core/uro_core/adapters/postgres/projector.py:46-97 | Applied in order, events that do not contradict each other leave every claim and belief they record in force |
| `Replay.DistilledAgrees` | packages/uro-core/uro_core/_distill_core.py:154-254 | One distillation never contradicts itself |
| `Replay.ConvergesIffSettled` | packages/uro-core/uro_core/_distill_core.py:154-254 | For any world, bundle and tier, reporting the bundle a second time leaves the whole world as it was if and only if every item is settled: no allowed line hands it on, to somebody else, from whoever the first report leaves it with; for an item that is nobody's the last such line decides |
| `Replay.ReportedItem` | packages/uro-core/uro_core/adapters/postgres/projector.py:237-249 | Who has an item after a report: the first other recipient of its owner's allowed lines, or the last recipient if it was nobody's |
| `Replay.OnlyOwnersAgain` | packages/uro-core/uro_core/_distill_core.py:154-254 | A second report of any bundle kills nobody, records no claim that is not recorded, and changes at most who owns what |
| `Replay.ReplayConverges` | packages/uro-core/uro_core/_distill_core.py:154-254 | So any bundle listing each item at most once converges entirely |
| `Replay.ListingAnItemTwiceDiverges` | packages/uro-core/uro_core/_distill_core.py:229-254 | A bundle that is not settled: it hands one item on and back, and the item has a different owner when it is reported again |
| `Replay.ReportTouchesOnlyItsCast` | packages/uro-core/uro_core/_distill_core.py:90-254 | A report kills and moves the goods of nobody outside its declared cast and, untrusted, of no player character or named figure; nothing else about the actors changes |
| `CommitHash.ConcatReadsBack` | packages/uro-core/uro_core/domain/hashing.py:10-20 | The concatenated canonical events determine the events and their order |
| `CommitHash.HashTextReadsBack` | packages/uro-core/uro_core/domain/hashing.py:10-20 | The hashed text determines whether there is a parent, the parent's hash, and every event in order |
| `Chain.ChainHashes` | packages/uro-core/uro_core/export.py:102-109 | The loop over commits by depth computes the chain, repeated ids and absent parents included |
| `Chain.HashOfEach` | packages/uro-core/uro_core/domain/hashing.py:10-21 | For distinct ids with shallower parents every commit's hash is taken over its parent's hash, or nothing without a parent in the bundle, followed by its events' texts by place, ties as listed |
| `Chain.ChainIsTheSolution` | packages/uro-core/uro_core/export.py:102-109 | With distinct ids and parents shallower than children the chain is the one map in which every commit's hash is the digest of its parent's hash and its events |
| `Chain.ListingOrderDoesNotMatter` | packages/uro-core/uro_core/export.py:102-109 | So it does not depend on the order the commits are listed in |
| `Chain.EventOrderDoesNotMatter` | packages/uro-core/uro_core/export.py:102-109 | Nor on the order events are listed in, when no two share a place |
| `Integrity.LineageExists` | packages/uro-core/uro_core/export.py:102-109 | Every commit of a well-formed bundle has an ancestry, oldest first |
| `Integrity.ChainsAgree` | packages/uro-core/uro_core/export.py:134-142 | Two verified bundles that agree on one commit's hash agree on the content and order of events in its whole ancestry, for a digest that does not collide on the texts hashed |
| `Integrity.TamperingIsCaught` | packages/uro-core/uro_core/export.py:134-142 | With distinct ids, after changing events under kept hashes verification succeeds if and only if every commit still hashes the same events in the same order |
| `Integrity.RepeatedIdGoesUnchecked` | packages/uro-core/uro_core/export.py:102-142 | With a repeated id, for any digest, there are two accepted bundles that differ in a commit's events under the same stored hashes |
| `Tampering.PinnedIffAllLive` | packages/uro-core/uro_core/export.py:102-142 | For any accepted bundle, repeated ids included, and a digest that does not collide on what is hashed for its live commits: every accepted rewriting leaves every commit its events if and only if every commit is live, that is, no later commit in depth order has its id or a live commit reads its hash as its parent's before it is overwritten |
| `Tampering.DeadGoesUnchecked` | packages/uro-core/uro_core/export.py:102-142 | And the accepted rewriting that changes the events of a commit which is not live |
| `Tampering.DistinctAllLive` | packages/uro-core/uro_core/export.py:102-109 | Distinct ids make every commit live |
| `Manifest.TextIsStructure` | packages/uro-core/uro_core/export.py:112-123 | For fields without the separator and ids not spelled None, two manifests' texts are equal if and only if name, stamped commits, branches and markers are the same, in whatever order listed |
| `Manifest.ManifestReads` | packages/uro-core/uro_core/export.py:112-123 | The text is the name, then a line for each commit, each branch and each marker in that order, each kind sorted by id, absent ids as None |
| `Ambiguity.TextIsPlainStructure` | packages/uro-core/uro_core/export.py:112-123 | For fields without the separator, ids spelled None included, the texts are equal if and only if the structures are, once such an id is taken for an absent one |
| `Ambiguity.AnotherReadsTheSameIff` | packages/uro-core/uro_core/export.py:112-123 | For any bundle at all: another of a different structure has the same text if and only if the bundle has any commit, branch or marker, or its name reads from some place on as the text of one |
| `Ambiguity.ForgedIsAccepted` | packages/uro-core/uro_core/export.py:126-146 | And with any commit, branch or marker there is one that verification accepts under the same manifest hash: the whole text as the name of a world with nothing in it |
| `Bundles.CommitLines` | packages/uro-core/uro_core/export.py:116-118 | The commit section of the manifest, built line by line |
| `Bundles.BranchLines` | packages/uro-core/uro_core/export.py:119-120 | The branch section, after what came before it |
| `Bundles.MarkerLines` | packages/uro-core/uro_core/export.py:121-122 | The marker section, after what came before it |
| `Bundles.WorldBundle.ManifestDigest` | packages/uro-core/uro_core/export.py:112-123 | The digest of the manifest text, sections sorted by id |
| `Bundles.WorldBundle.StampChain` | packages/uro-core/uro_core/export.py:126-131 | Every commit gets its chain hash and the bundle the manifest over the new hashes; nothing else changes |
| `Bundles.WorldBundle.VerifyBundle` | packages/uro-core/uro_core/export.py:134-146 | Intact if and only if every stored hash and the manifest are the recomputed ones; otherwise the first commit that does not match, or the manifest when all commits do |
| `Bundles.StampedVerifies` | packages/uro-core/uro_core/export.py:126-146 | Every stamped bundle verifies, whatever was in it |
| `Bundles.VerifiedIsStamped` | packages/uro-core/uro_core/export.py:126-146 | A bundle verifies if and only if stamping it changes nothing |
| `Bundles.StampingIgnoresListing` | packages/uro-core/uro_core/export.py:102-131 | The order commits, branches and markers are listed in changes neither a commit's hash nor the manifest |
| `Bundles.ManifestPinsTheWorld` | packages/uro-core/uro_core/export.py:112-146 | Two verified bundles with one manifest hash are one world: same structure, and every commit with the same events in its whole ancestry |
| `CrewSafety.JoinsFormTheRing` | packages/uro-core/uro_core/session.py:119-139 | Clients connecting one at a time form a ring in client order with the first at turn |
| `CrewSafety.MoveKeeps` | examples/games/seventh-vault/players.py:76-134 | Every move of every player, the director, a client or the server keeps the protocol's invariant |
| `CrewSafety.OutstandingIsNext` | examples/games/seventh-vault/players.py:120-134 | An intent out at the server is the next beat of the script, sent by the player whose turn it is, and the only one |
| `CrewSafety.ShownIsTheBeat` | examples/games/seventh-vault/players.py:127-129 | Finding one's own commit by intent text finds the beat of that intent or nothing |
| `CrewSafety.LogStaysOnScript` | examples/games/seventh-vault/players.py:120-186 | Under every interleaving, faults included, the committed log is a prefix of the script under the right names, nobody is refused, and any two clients have seen prefixes of each other |
| `CrewSafety.CanonLandsFirst` | examples/games/seventh-vault/heist.py:402-414 | The intent after a hooked beat is sent only once that hook's canon has landed |
| `CrewSafety.TableIsHeld` | examples/games/seventh-vault/heist.py:402-414 | While the director acts on a hook the hooked beat is the last one committed and nothing is in flight |
| `CrewProgress.SomethingCanMove` | examples/games/seventh-vault/players.py:76-134 | Until the script is finished some move other than a fault is enabled |
| `CrewProgress.CrewFinishes` | examples/games/seventh-vault/players.py:120-186 | A run without faults is no longer than a fixed bound, and when it can go no further the whole script has committed, everyone has seen it and every hook has landed |
| `Announcements.Announced.Add` | packages/uro-server/uro_server/app.py:192-197 | Exactly the announcement step on the table, oldest entries going first; no commit id, no change |
| `Announcements.AddKeepsOk` | packages/uro-server/uro_server/app.py:192-197 | The table never exceeds its cap and its order lists each of its commits once |
| `Announcements.AddTells` | packages/uro-server/uro_server/app.py:192-200 | An announcement is remembered, and nothing is remembered that was not announced |
| `Announcements.RememberedIff` | packages/uro-server/uro_server/app.py:181-200 | Since its entry a commit is in the table without a break if and only if fewer than `cap` announcements brought a commit not then in the table |
| `Announcements.ToldIff` | packages/uro-server/uro_server/app.py:192-200 | After any history the table says a campaign was told of a commit if and only if the commit entered it, fewer than `cap` announcements brought a commit not in the table since, and the campaign was announced then or later |
| `Announcements.AnnouncingAgainDoesNotRefresh` | packages/uro-server/uro_server/app.py:181-200 | So announcing a commit again does not make it newer: with one commit newer than its last announcement and room for two it is forgotten |
| `LiveFeed.MoveKeeps` | packages/uro-server/uro_server/app.py:734-760 | Every step of the interleaving keeps the table equal to what the announcements make of it, which are the frames published and the commits noted by hooks, and, while no two beats of a campaign overlap, every such commit told or owed |
| `LiveFeed.OnlyItsOwnBranch` | packages/uro-server/uro_server/app.py:734-760 | Whatever the feed says, a campaign is told only of commits this database made on its branch, and the table never exceeds its cap |
| `LiveFeed.PushTellsEveryone` | packages/uro-server/uro_server/app.py:734-760 | When a push is done every live campaign on the commit's branch has been told of it or was announced it by its own beat's hook; and then it is told or owed it, unless frames of one campaign overlapped |
| `LiveFeed.OnceExactlyWhenSafe` | packages/uro-server/uro_server/app.py:734-760 | A step leaves nobody told twice, and nothing under way that would, if and only if it is safe: a hook runs while no other frame is due to its campaign; it and an outcome come before the feed told or chose their campaign; and what was announced to a campaign is still remembered, in the exact sense above, when the feed looks |
| `LiveFeed.UnsafeTellsTwice` | packages/uro-server/uro_server/app.py:734-760 | After an unsafe step, finishing what is under way tells somebody twice |
| `LiveFeed.ToldOnceIffSafe` | packages/uro-server/uro_server/app.py:734-760 | Over any run of played beats, outcomes and repeated, reordered or unknown messages, joins and leaves that leaves nothing pending and gives up no push, nobody is told of a commit twice if and only if every step was safe; and then every beat's campaign has been told of its commit |
| `LiveFeed.OwnToldIffInTurn` | packages/uro-server/uro_server/app.py:2646-2765 | Once every frame is out, each beat's own commit has been carried to its campaign by a beat's frame if and only if no hook ran while another frame of its campaign was due |
| `LiveFeed.OverlappingBeats` | packages/uro-server/uro_server/app.py:400-402 | For any two commits on a campaign's branch: a run of two overlapping beats in which it is told twice of the later one and of the earlier one never, not even when the feed brings it |
| `LiveFeed.EachCampaignToldOnce` | packages/uro-server/uro_server/app.py:734-760 | And if each hook runs while no other frame is due to its campaign, hooks and outcomes come before the feed takes their commit up, and commits are looked up before `cap` others were brought, nobody is told twice, pushes given up included, and each beat's campaign is told or owed its own commit |
| `LiveFeed.FeedOvertakesHook` | packages/uro-server/uro_server/app.py:400-402 | For any commit: a run in which the feed takes it up before the beat's own hook, and its campaign is told twice |
| `LiveFeed.ForgottenIsToldAgain` | packages/uro-server/uro_server/app.py:734-760 | For any two commits of a branch, with room for one: a run in which the older is pushed again after being forgotten, and its campaign is told twice |
| `RealmRuns.CheapestIsLeast` | examples/games/sable-court/ledger.py:140-149 | No holding of the house is cheaper, or as cheap with a smaller name |
| `RealmRuns.PairIsSymmetric` | examples/games/sable-court/ledger.py:74-75 | A pair of houses is the same in either order |
| `RealmAccounts.SaleConserves` | examples/games/sable-court/ledger.py:140-149 | A distress sale moves one holding and its price and changes no total, even when the seller is the buyer |
| `RealmAccounts.EarnedBrings` | examples/games/sable-court/ledger.py:121-125 | Income changes total gold by the holdings' value less the houses' strength, and nothing else |
| `RealmAccounts.AmbitionsAccounted` | examples/games/sable-court/ledger.py:126-149 | Ambitions spend ten gold for each recruit and each bought influence, and only for those; holdings stay |
| `RealmAccounts.WarredConserves` | examples/games/sable-court/ledger.py:156-185 | Wars move holdings between houses and touch no gold |
| `RealmRuns.TickAccounts` | examples/games/sable-court/ledger.py:118-186 | A tick keeps the multiset of holdings and changes total gold by holdings' value less prior strength less ten for each recruit and influence bought |
| `RealmRuns.TickPolitics` | examples/games/sable-court/ledger.py:151-185 | After a tick the pairs at war are those that were and those whose tension reached the threshold, tension stays, and whoever fought is unready no longer |
| `WarRules.FoughtIsBattled` | examples/games/sable-court/ledger.py:156-185 | In a battle of two houses the one whose strength less unreadiness plus twice its die is larger wins and loses one point of strength; the other loses two, neither below zero, and its cheapest holding, no other having a lower price or the same with a smaller name, which the winner gains; equal sums change no house; nobody else is touched and both are ready again |
| `WarRules.FoughtAgainstItself` | examples/games/sable-court/ledger.py:156-185 | A house at war with itself, which only a caller can bring about, loses three points and no holding |
| `WarRules.ReadiedHouse` | examples/games/sable-court/ledger.py:118-150 | Every house but the buyer goes into the wars with its income and its ambition done: expanding, every ten gold a point of strength and less than ten left; ascending, ten gold for one influence; converting, influence for nothing; surviving in debt, its cheapest holding sold at its price; else only the income |
| `WarRules.WorthAddsUp` | examples/games/sable-court/ledger.py:121-124 | What holdings bring is the sum of what each brings |
| `WarRules.TickIs` | examples/games/sable-court/ledger.py:118-186 | A whole tick: the houses readied so, the wars those that were on and those at a tension of five, and one battle for each pair at war, in order, each decided as above |
| `RealmRuns.PeaceHolds` | examples/games/sable-court/ledger.py:109-111 | A peace keeps the pair out of the next tick's wars |
| `RealmRuns.NoSharedHoldings` | examples/games/sable-court/ledger.py:118-186 | With every holding owned once, no two houses own the same one |
| `RealmRuns.RunConserves` | examples/games/sable-court/ledger.py:101-186 | Over any run of ticks and intrigue the holdings are unchanged, none gets two owners, and no strength goes negative |
| `RealmRuns.OpeningIsSound` | examples/games/sable-court/ledger.py:87-97 | The realm the game opens with meets everything those runs start from |
| `Ledger.House.PickCheapest` | examples/games/sable-court/ledger.py:140-143 | The loop finds the least holding by value, then name |
| `Ledger.House.EarnIncome` | examples/games/sable-court/ledger.py:121-125 | Gold grows by the holdings' value less upkeep |
| `Ledger.House.Spend` | examples/games/sable-court/ledger.py:128-139 | Recruits, influence or nothing, by the house's ambition |
| `Ledger.ShadowLedger.constructor` | examples/games/sable-court/ledger.py:79-97 | The ledger starts as the given realm at peace on day 0, its houses in sorted order |
| `Ledger.ShadowLedger.AddTension` | examples/games/sable-court/ledger.py:101-104 | Only the pair's tension grows, and its new value is returned |
| `RealmRuns.ResetKeepsWars` | examples/games/sable-court/ledger.py:106-107 | A reset tension neither brings a war in the next tick nor ends one |
| `Ledger.ShadowLedger.MakePeace` | examples/games/sable-court/ledger.py:109-111 | The pair is at war no longer and its tension is zeroed |
| `RealmRuns.SurpriseCountsOnce` | examples/games/sable-court/ledger.py:113-114 | A surprised house, either one of the pair, is that much weaker in its next battle, whatever was held against it before, its enemy as strong as ever, and in no later battle |
| `Ledger.ShadowLedger.Sell` | examples/games/sable-court/ledger.py:140-149 | The sale, in place on seller and buyer, who may be one house |
| `Ledger.ShadowLedger.DeclareWars` | examples/games/sable-court/ledger.py:151-154 | Exactly the tense pairs not yet at war are declared |
| `Ledger.ShadowLedger.Fight` | examples/games/sable-court/ledger.py:156-185 | One battle under the two dice rolled, as WarRules.FoughtIsBattled says, in place |
| `Ledger.ShadowLedger.WageWars` | examples/games/sable-court/ledger.py:156-185 | Every warring pair fights once, in sorted order, and the result is those battles in turn |
| `Ledger.ShadowLedger.Tick` | examples/games/sable-court/ledger.py:118-186 | A whole tick in place is the realm's tick, as WarRules.TickIs says, under exactly the dice rolled, with the declared wars reported and the day advanced |
| `Tokens.AgreesIffLastTogether` | packages/uro-server/uro_server/sessions.py:42-110 | Through any interleaving of minting, revoking and campaign removal, each with a store step and later a cache step: once nothing is pending, cache and store agree on a key if and only if the last store step and the last cache step that concerned it belong to the same operation, or neither to its minting |
| `Tokens.CacheIsTheStore` | packages/uro-server/uro_server/sessions.py:42-110 | So exactly then a token resolves, with its campaign, as the store's live rows say; static tokens are never scoped to a campaign |
| `Tokens.RestartChangesNothingIff` | packages/uro-server/uro_server/sessions.py:42-110 | And a process started anew on the same rows knows the same if and only if that holds of every key |
| `Tokens.OvertakenMint` | packages/uro-server/uro_server/sessions.py:71-110 | A minting whose row is revoked or removed between its store step and its cache step: in the end the store says no and the process still lets the token in |
| `Tokens.SerialAgrees` | packages/uro-server/uro_server/sessions.py:42-110 | Operations that do not overlap keep cache and store the same throughout |
| `Tokens.StaysOutIff` | packages/uro-server/uro_server/sessions.py:71-110 | A token that is out stays out for good, whatever happens but its own minting, if and only if no minting of it is waiting for its cache step |
| `Tokens.UndisturbedLeaves` | packages/uro-server/uro_server/sessions.py:71-110 | An operation nothing comes in between of grants a minted key, ends a revoked one, a revoked participant's on that campaign and those of removed campaigns, and leaves every other as it was, in store and cache |
| `Tokens.TokenRegistry.constructor` | packages/uro-server/uro_server/sessions.py:31-40 | The cache starts empty |
| `Tokens.TokenRegistry.Hydrate` | packages/uro-server/uro_server/sessions.py:42-47 | The loop adds exactly the store's live rows to the cache |
| `Tokens.TokenRegistry.BeginMint` | packages/uro-server/uro_server/sessions.py:71-78 | The store gains the live row and the cache write stays pending; without a store nothing happens |
| `Tokens.TokenRegistry.BeginRevoke` | packages/uro-server/uro_server/sessions.py:82-89 | True exactly when a live row was revoked; the eviction stays pending |
| `Tokens.TokenRegistry.BeginRevokeParticipant` | packages/uro-server/uro_server/sessions.py:93-99 | All the participant's live rows on the campaign are revoked and counted; the eviction of exactly these keys stays pending |
| `Tokens.TokenRegistry.BeginRemoval` | packages/uro-core/uro_core/adapters/postgres/store.py:1389-1394 | Removed campaigns lose their rows; forgetting them stays pending |
| `Tokens.TokenRegistry.Complete` | packages/uro-server/uro_server/sessions.py:79-110 | The suspended operation writes, evicts or forgets in the cache as it is now, and nothing else changes |
| `Tokens.TokenRegistry.ForgetCampaigns` | packages/uro-server/uro_server/sessions.py:104-110 | Exactly the removed campaigns' tokens leave the cache, and are counted |
| `Hub.SessionHub.constructor` | packages/uro-server/uro_server/sessions.py:117-122 | No subscribers and nothing published |
| `Hub.SessionHub.Subscribe` | packages/uro-server/uro_server/sessions.py:124-127 | A fresh empty queue for this campaign, others untouched |
| `Hub.SessionHub.Unsubscribe` | packages/uro-server/uro_server/sessions.py:129-134 | Exactly this queue is dropped, known or not |
| `Hub.SessionHub.Publish` | packages/uro-server/uro_server/sessions.py:136-138 | Every subscriber of the campaign, and nobody else, gets the message at the end of its queue, so each queue stays what its campaign was sent since it subscribed |
| `Hub.SessionHub.Campaigns` | packages/uro-server/uro_server/sessions.py:143-145 | Exactly the campaigns with a live connection |
| `Hub.SessionHub.LaterHasSuffix` | packages/uro-server/uro_server/sessions.py:117-138 | Of two clients of a session, the one with fewer messages has a suffix of what the other has |
| `Outbox.Publisher.Publish` | packages/uro-core/uro_core/outbox.py:66-79 | Acknowledged means delivered; a failure may come before or after delivery |
| `Outbox.OutboxStore.Drain` | packages/uro-core/uro_core/adapters/postgres/store.py:404-442 | Up to `limit` of what is pending by now delivered in order and stamped, nothing left when fewer; a failure stamps nothing and may have delivered some of them |
| `Outbox.RelayOutbox` | packages/uro-core/uro_core/outbox.py:23-33 | Terminates with everything pending, and whatever arrived before its last batch, published in commit order and counted, or fails with whole batches stamped and the failing one pending, or refuses a limit below one |
| `Outbox.WindowExtends` | packages/uro-core/uro_core/outbox.py:23-33 | Receiving again from at or before the first message not yet received extends the first deliveries in order |
| `Outbox.RelayStaysInStep` | packages/uro-core/uro_core/outbox.py:23-33 | Through success or failure nothing is lost and first deliveries stay in commit order; after a success everything has been received |
| `Outbox.BackoffDoubles` | packages/uro-core/uro_core/outbox.py:49-60 | Doubling under the cap step by step gives min(30, interval times 2^k) after k failures, and the plain interval after none |
| `Outbox.Round` | packages/uro-core/uro_core/outbox.py:36-63 | A round while commits keep arriving keeps the subscriber in step, and on success stamps exactly what it counts |
| `Outbox.RelayForever` | packages/uro-core/uro_core/outbox.py:36-63 | Through any pattern of failures and of commits arriving between and during relay calls, the daemon loses nothing and keeps first deliveries in order; its waits are the interval after a success and min(30, interval times 2^k) after k failures before a failing round; reports are positive, never exceed what was stamped and are all of it without failures; a bad limit ends it at once |
| `CodexText.DecodeOfEncode` | examples/games/hollowloop/codex.py:141-152 | Every entry's text reads back with its key and segment, and the loop's name up to the first mark |
| `CodexText.RoundTrip` | examples/games/hollowloop/codex.py:141-152 | It reads back as itself if and only if the loop's name has no " at segment " in it and does not end with " at segment" |
| `CodexText.ReadableIffSplit` | examples/games/hollowloop/codex.py:141-152 | Those are exactly the names after which the parser's first mark is the one that was written |
| `CodexText.UnreadableLoop` | examples/games/hollowloop/codex.py:141-152 | A loop whose name only ends like the mark is already unreadable |
| `Codex.FirstWriterWins` | examples/games/hollowloop/codex.py:122-138 | The first discovery of a clue is the one kept, whatever follows |
| `Codex.LoadedByMembers` | examples/games/hollowloop/codex.py:115-120 | What is read from clues with different ids is each clue's own reading, whatever their order |
| `Codex.BranchCodex.Load` | examples/games/hollowloop/codex.py:115-120 | Reads every clue claim of the branch over what is known; stops at a number that does not parse |
| `Codex.BranchCodex.Record` | examples/games/hollowloop/codex.py:122-138 | A new clue is kept and one claim written; a known one changes nothing |
| `Codex.ReopenedReads` | examples/games/hollowloop/codex.py:115-138 | A codex opened anew on the branch knows every clue recorded, by its first discovery, with the loop as far as it can be read |
| `Codex.ReopenedKnowsTheSame` | examples/games/hollowloop/codex.py:115-138 | And knows exactly what was recorded if and only if every loop's name is readable |
| `Codex.FileReadsBack` | examples/games/hollowloop/codex.py:84-100 | Reading back the file of known entries gives them all, unchanged |
| `Codex.FileCodex.Load` | examples/games/hollowloop/codex.py:84-87 | The entries become those of the file, each under its own key, so that recording may follow; without a file they stay |
| `Codex.FileCodex.Entries` | examples/games/hollowloop/codex.py:65-66 | Each entry once, in order of key |
| `Codex.FileCodex.Record` | examples/games/hollowloop/codex.py:89-100 | A new clue is kept and the whole file rewritten; a known one leaves both as they are |
| `StableSort.SortIsStable` | packages/uro-core/uro_core/session.py:119-139 | Re-sorting by seat is a sort that keeps ties in their original order |

## Left out

- Ledger.ShadowLedger.Tick: a war involving a name that is no house, or a holding without a price, makes the source raise KeyError half way through a tick; the model requires that the coming wars are between known houses and every holding has its price.
- WarRules.ReadiedHouse: is about every house but the buyer `argent`, whose gold and holdings the others' sales change before and after its own turn; what it gains and pays is covered by RealmAccounts.SaleConserves and RealmRuns.TickAccounts.
- Ledger.ShadowLedger.Sell: the buyer `argent` is required to be a house, for the same reason.
- Codex.BranchCodex.Record: the clue must be one of the game's four, since the source looks its title up and raises KeyError otherwise.
- Session.VoteArbiter.CastVote: the invariant is kept only for members' votes, because the source accepts anybody's.
- Battle.Battle.constructor: units are living, unbloodied, of distinct non-empty uids and on distinct passable tiles, and damage dice have at least one side; the source takes any list, and its rosters meet this.
- Walking.StepToward: the mover stands on a passable tile that nobody else holds, which every reachable battle keeps.
- CrewSafety.LogStaysOnScript: beat k belongs to client k modulo the number of clients, intents are unique and not blank, and clients connect in order, as the scripts and run_crew's own check guarantee; blank is judged on ASCII white space.
- CrewProgress.CrewFinishes: faults, a failed beat or an aborted run, are excluded; what happens after them is covered by the safety theorems only.
- LiveFeed.ToldOnceIffSafe: a push that is given up after an unsafe step may still spare its campaign, so such runs are covered by the theorems about steps only; the feed's messages are taken up one push at a time, as its one consumer does; campaigns and commits are not deleted during a run, and a committed beat does not fail before its frame, as its later steps never raise; the building of frames is not modelled.
- Integrity.ChainsAgree: a digest free of collisions on the texts hashed is assumed, SHA-256 itself is not modelled; nor is the JSON encoder, an event being its canonical text.
- Ambiguity.ForgedIsAccepted: gives an accepted bundle for every bundle with an entry; for an empty world whose name reads as an entry, whether one is accepted depends on the digest when the entry is a commit, and is not stated.
- Bundles.ManifestPinsTheWorld: both bundles are without `|` in their fields and without ids spelled "None", which verify_bundle does not check; embeddings and memories of a bundle are covered by neither chain nor manifest in the source, and are not modelled.
- Outbox.RelayForever: one relay; commits arrive at the drains, as a drain sees what was committed before it; the publisher is seen by one of its subscribers; the stop event is the end of the rounds.
- Tokens.AgreesIffLastTogether: that fresh secrets do not repeat is assumed of the keys minted; hydration is done before anything else begins, as at startup, and is one step.
- Codex.FileCodex.Load: the file is the list of entries; its JSON text is not modelled.
- Codex.BranchCodex.Load: int() is modelled on ASCII text, with surrounding white space, a sign, and single underscores between digits; the other digits and spaces of Unicode are not, and never come from an encoded entry.
- Replay.ReplayConverges: the world is the projections a distillation reads and writes, and its events are applied directly; commits, branches and event metadata are left out, and confidence is a real rounded to three places.
- A transfer whose item was not reported, an actor's damage, and all other projected event types are left out: a distillation emits none of them.
- Receipt reasons, display names, log lines and the realm's report texts carry no decision and are left out.
- The fled, kills, alone_rounds and objective_holders fields of a battle report are read off the final units and would only restate them.
- The campaign picker over battles (rosters, maps, payouts, the campaign loop of ironwake) is scripted data over the engine.
- `resolve_skirmish` of the heist repeats rounds until the dice end it, so nothing about its length can be claimed.
- Task cancellation, timeouts as durations, WebSocket and SQL plumbing, authentication beyond tokens, and the HTTP routes are plumbing over libraries.
- Several relays over one store may interleave even one branch's commits, as the store's own comment says; only a single relay is modelled.
- Language-model providers, narration and the scripted story arcs are content rather than logic.
