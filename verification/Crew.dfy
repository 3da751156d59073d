/** The scripted crew, its director and the server's turn arbiter as one machine over interleaved moves. */
module Crew {
  import opened Common
  import opened TurnRing

  datatype Beat = Beat(owner: nat, intent: string)

  /** The clients' participants in ring order, the heist script, and the beats the director
      hooks, in order. */
  datatype Plan = Plan(ids: seq<Id>, script: seq<Beat>, hooks: seq<nat>)

  /** Where a player is with its next beat: at the gate, counting commits, or waiting for its
      own commit to come back. */
  datatype Phase = AtGate | Counting | Awaiting

  datatype Player = Player(beat: nat, phase: Phase)

  datatype Watch = Watching | Acting | Releasing

  datatype Frame = Frame(participant: Id, intent: string)

  /** `held`: closed gates. `inbox`: intents sent and not yet read by the server, per client.
      `running`: the beat each connection's handler is playing. `seen`: how much of the log each
      client has received. `landed`: hooked beats whose canon the director has landed. */
  datatype Table = Table(
    players: seq<Player>,
    held: set<nat>,
    inbox: seq<seq<string>>,
    running: seq<Option<string>>,
    log: seq<Frame>,
    seen: seq<nat>,
    roster: Roster,
    nextHook: nat,
    watch: Watch,
    landed: set<nat>,
    refused: nat,
    failed: bool,
    stopped: bool)

  /** The first of player `i`'s beats from `from` on. */
  function NextBeat(script: seq<Beat>, i: nat, from: nat): (k: nat)
    requires from <= |script|
    ensures from <= k <= |script|
    ensures k < |script| ==> script[k].owner == i
    ensures forall j :: from <= j < k ==> script[j].owner != i
    decreases |script| - from
  {
    if from == |script| || script[from].owner == i then from else NextBeat(script, i, from + 1)
  }

  predicate Blank(s: string) {
    forall c :: c in s ==> c in " \t\n\r"
  }

  /** The first frame a client has received with this intent. */
  function FirstShown(log: seq<Frame>, intent: string): (r: Option<nat>)
    ensures r.Some? ==> r.value < |log| && log[r.value].intent == intent
    ensures r.None? ==> forall j :: 0 <= j < |log| ==> log[j].intent != intent
  {
    if log == [] then None
    else
      var before := FirstShown(log[..|log| - 1], intent);
      if before.Some? then before
      else if log[|log| - 1].intent == intent then Some(|log| - 1)
      else None
  }

  /** Whose turn it is after `k` rotations of a ring of `n`. */
  function TurnAt(n: nat, k: nat): (i: nat)
    requires n > 0
    ensures i < n
  {
    if k == 0 then 0 else Wrapped(TurnAt(n, k - 1) + 1, n)
  }

  ghost predicate InTurn(plan: Plan) {
    |plan.ids| > 0 && forall k :: 0 <= k < |plan.script| ==> plan.script[k].owner == TurnAt(|plan.ids|, k)
  }

  ghost predicate Distinct(plan: Plan) {
    forall j, k :: 0 <= j < k < |plan.script| ==> plan.script[j].intent != plan.script[k].intent
  }

  /** What the scripts and the connection order guarantee. */
  ghost predicate PlanOk(plan: Plan) {
    && NoDup(plan.ids)
    && InTurn(plan)
    && Distinct(plan)
    && (forall k :: 0 <= k < |plan.script| ==> !Blank(plan.script[k].intent))
    && HooksInOrder(plan)
  }

  ghost predicate HooksInOrder(plan: Plan) {
    && (forall j, k :: 0 <= j < k < |plan.hooks| ==> plan.hooks[j] < plan.hooks[k])
    && (forall j :: 0 <= j < |plan.hooks| ==> plan.hooks[j] < |plan.script|)
  }

  /** The gates closed for hooks `from` on: the beat after each, unless the script ends there. */
  function GatesFrom(plan: Plan, from: nat): set<nat>
    requires from <= |plan.hooks|
    decreases |plan.hooks| - from
  {
    if from == |plan.hooks| then {}
    else
      (if plan.hooks[from] + 1 < |plan.script| then {plan.hooks[from] + 1} else {})
      + GatesFrom(plan, from + 1)
  }

  function Opening(plan: Plan): Table {
    var n := |plan.ids|;
    Table(seq(n, i requires 0 <= i < n => Player(NextBeat(plan.script, i, 0), AtGate)),
          GatesFrom(plan, 0),
          seq(n, i requires 0 <= i < n => []),
          seq(n, i requires 0 <= i < n => None),
          [],
          seq(n, i requires 0 <= i < n => 0),
          Roster(plan.ids, 0, map p | p in plan.ids :: 1),
          0, Watching, {}, 0, false, false)
  }

  ghost predicate Shaped(plan: Plan, t: Table) {
    var n := |plan.ids|;
    && n > 0
    && |t.players| == n && |t.inbox| == n && |t.running| == n && |t.seen| == n
    && (forall i :: 0 <= i < n ==> t.seen[i] <= |t.log| && t.players[i].beat <= |plan.script|)
    && t.nextHook <= |plan.hooks| && (t.watch != Watching ==> t.nextHook < |plan.hooks|)
    && (forall j :: 0 <= j < |plan.hooks| ==> plan.hooks[j] < |plan.script|)
  }

  // --- moves ---

  datatype Move =
    | Pass(i: nat) | Send(i: nat) | Receive(i: nat) | CommitBeat(i: nat) | FailBeat(i: nat)
    | Deliver(i: nat) | Confirm(i: nat) | See | Land | Release | Stop

  ghost predicate Enabled(plan: Plan, t: Table, m: Move)
    requires Shaped(plan, t)
  {
    var n := |plan.ids|;
    match m
    case Pass(i) => i < n && !t.stopped && t.players[i].phase == AtGate
                    && t.players[i].beat < |plan.script| && t.players[i].beat !in t.held
    case Send(i) => i < n && !t.stopped && t.players[i].phase == Counting
                    && t.players[i].beat < |plan.script| && t.seen[i] >= t.players[i].beat
    case Receive(i) => i < n && t.inbox[i] != [] && t.running[i] == None
    case CommitBeat(i) => i < n && t.running[i].Some?
    case FailBeat(i) => i < n && t.running[i].Some?
    case Deliver(i) => i < n && t.seen[i] < |t.log|
    case Confirm(i) => i < n && !t.stopped && t.players[i].phase == Awaiting
                       && t.players[i].beat < |plan.script|
                       && FirstShown(t.log[..t.seen[i]], plan.script[t.players[i].beat].intent).Some?
    case See => !t.stopped && t.watch == Watching && t.nextHook < |plan.hooks|
                && FirstShown(t.log[..t.seen[0]], plan.script[plan.hooks[t.nextHook]].intent).Some?
    case Land => !t.stopped && t.watch == Acting
    case Release => !t.stopped && t.watch == Releasing
    case Stop => !t.stopped
  }

  /** A client sends its next intent. */
  function Sent(plan: Plan, t: Table, i: nat): Table
    requires i < |t.players| && i < |t.inbox| && t.players[i].beat < |plan.script|
  {
    t.(inbox := t.inbox[i := t.inbox[i] + [plan.script[t.players[i].beat].intent]],
       players := t.players[i := t.players[i].(phase := Awaiting)])
  }

  /** The server reads an intent: blank ones are dropped, and only the holder is admitted. */
  function Received(plan: Plan, t: Table, i: nat): Table
    requires i < |plan.ids| && i < |t.inbox| && i < |t.running| && t.inbox[i] != []
  {
    var text := t.inbox[i][0];
    var t' := t.(inbox := t.inbox[i := t.inbox[i][1..]]);
    if Blank(text) then t'
    else if Holder(t.roster) == None || Holder(t.roster) == Some(plan.ids[i]) then
      t'.(running := t.running[i := Some(text)])
    else t'.(refused := t.refused + 1)
  }

  /** A beat commits: it is published to everyone and the turn rotates. */
  function Committed(plan: Plan, t: Table, i: nat): Table
    requires i < |plan.ids| && i < |t.running| && t.running[i].Some?
  {
    t.(log := t.log + [Frame(plan.ids[i], t.running[i].value)],
       running := t.running[i := None],
       roster := Rotated(t.roster))
  }

  /** A beat that fails commits nothing and still yields the turn. */
  function Failed(t: Table, i: nat): Table
    requires i < |t.running|
  {
    t.(running := t.running[i := None], roster := Rotated(t.roster), failed := true)
  }

  /** A player's own commit came back; one under another name ends the run. */
  function Confirmed(plan: Plan, t: Table, i: nat): Table
    requires i < |t.players| && i < |plan.ids| && i < |t.seen| && t.seen[i] <= |t.log|
    requires t.players[i].beat < |plan.script|
    requires FirstShown(t.log[..t.seen[i]], plan.script[t.players[i].beat].intent).Some?
  {
    var b := t.players[i].beat;
    var at := FirstShown(t.log[..t.seen[i]], plan.script[b].intent).value;
    if t.log[at].participant != plan.ids[i] then t.(stopped := true)
    else t.(players := t.players[i := Player(NextBeat(plan.script, i, b + 1), AtGate)])
  }

  ghost function Do(plan: Plan, t: Table, m: Move): Table
    requires Shaped(plan, t) && Enabled(plan, t, m)
  {
    match m
    case Pass(i) => t.(players := t.players[i := t.players[i].(phase := Counting)])
    case Send(i) => Sent(plan, t, i)
    case Receive(i) => Received(plan, t, i)
    case CommitBeat(i) => Committed(plan, t, i)
    case FailBeat(i) => Failed(t, i)
    case Deliver(i) => t.(seen := t.seen[i := t.seen[i] + 1])
    case Confirm(i) => Confirmed(plan, t, i)
    case See => t.(watch := Acting)
    case Land => t.(watch := Releasing, landed := t.landed + {plan.hooks[t.nextHook]})
    case Release => t.(watch := Watching, held := t.held - {plan.hooks[t.nextHook] + 1}, nextHook := t.nextHook + 1)
    case Stop => t.(stopped := true)
  }

  // --- the invariant ---

  /** What player `i` has at the server: its current beat, once sent and until it commits. */
  ghost predicate OutstandingOk(plan: Plan, p: Player, inbox: seq<string>, running: Option<string>,
                                done: nat, failed: bool) {
    if p.phase == Awaiting && p.beat == done && p.beat < |plan.script| && !failed
    then || (inbox == [plan.script[p.beat].intent] && running == None)
         || (inbox == [] && running == Some(plan.script[p.beat].intent))
    else inbox == [] && running == None
  }

  /** Where player `i` can be once `done` beats committed. */
  ghost predicate PlaceOk(plan: Plan, i: nat, p: Player, done: nat, failed: bool) {
    && p.beat <= |plan.script|
    && (if p.beat == |plan.script| then p.phase == AtGate else plan.script[p.beat].owner == i)
    && (forall k :: 0 <= k < |plan.script| && k != p.beat && plan.script[k].owner == i ==>
          (k < done <==> k < p.beat))
    && (if p.phase == Awaiting then p.beat <= done else done <= p.beat)
    && (failed && done < |plan.script| && plan.script[done].owner == i ==> p == Player(done, Awaiting))
  }

  ghost predicate PlayerOk(plan: Plan, i: nat, p: Player, inbox: seq<string>, running: Option<string>,
                           done: nat, failed: bool) {
    PlaceOk(plan, i, p, done, failed) && OutstandingOk(plan, p, inbox, running, done, failed)
  }

  ghost predicate PlayersOk(plan: Plan, players: seq<Player>, inbox: seq<seq<string>>,
                            running: seq<Option<string>>, done: nat, failed: bool) {
    && |players| == |inbox| == |running| == |plan.ids|
    && forall i :: 0 <= i < |players| ==> PlayerOk(plan, i, players[i], inbox[i], running[i], done, failed)
  }

  /** The log is the script so far, under the right names. */
  ghost predicate LogIsScript(plan: Plan, log: seq<Frame>) {
    && |plan.ids| > 0
    && |log| <= |plan.script|
    && forall k :: 0 <= k < |log| ==>
      log[k] == Frame(plan.ids[TurnAt(|plan.ids|, k)], plan.script[k].intent)
  }

  ghost predicate TurnOk(plan: Plan, t: Table) {
    && |plan.ids| > 0
    && t.roster.ring == plan.ids
    && t.roster.turn == TurnAt(|plan.ids|, |t.log| + if t.failed then 1 else 0)
    && t.refused == 0
  }

  /** How far the director is: hooks before `next` are finished. */
  ghost predicate DirectorOk(plan: Plan, next: nat, watch: Watch, landed: set<nat>, done: nat) {
    forall j :: 0 <= j < |plan.hooks| ==>
      && (plan.hooks[j] in landed <==> j < next || (j == next && watch == Releasing))
      && (j < next || (j == next && watch != Watching) ==> plan.hooks[j] < done)
  }

  ghost predicate GatesOk(players: seq<Player>, held: set<nat>, done: nat) {
    && (forall i :: 0 <= i < |players| && players[i].phase != AtGate ==> players[i].beat !in held)
    && (forall b :: b in held ==> done <= b)
  }

  ghost predicate Inv(plan: Plan, t: Table) {
    && Shaped(plan, t)
    && PlayersOk(plan, t.players, t.inbox, t.running, |t.log|, t.failed)
    && LogIsScript(plan, t.log)
    && TurnOk(plan, t)
    && DirectorOk(plan, t.nextHook, t.watch, t.landed, |t.log|)
    && t.held == GatesFrom(plan, t.nextHook)
    && GatesOk(t.players, t.held, |t.log|)
  }

  // --- runs ---

  ghost predicate IsRun(plan: Plan, t: Table, moves: seq<Move>, end: Table)
    decreases |moves|
  {
    if moves == [] then end == t
    else Shaped(plan, t) && Enabled(plan, t, moves[0]) && IsRun(plan, Do(plan, t, moves[0]), moves[1..], end)
  }

  ghost predicate Reachable(plan: Plan, t: Table) {
    exists moves :: IsRun(plan, Opening(plan), moves, t)
  }
}
