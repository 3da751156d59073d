/** Every interleaving of the crew keeps the log on script. */
module CrewSafety {
  import opened Common
  import opened TurnRing
  import opened Crew

  lemma OpeningInv(plan: Plan)
    requires PlanOk(plan)
    ensures Inv(plan, Opening(plan))
  {
    var t := Opening(plan);
    assert PlayersOk(plan, t.players, t.inbox, t.running, 0, false);
  }

  lemma TurnAdvances(plan: Plan, r: Roster, k: nat)
    requires |plan.ids| > 0 && r.ring == plan.ids && r.turn == TurnAt(|plan.ids|, k)
    ensures Rotated(r).ring == plan.ids && Rotated(r).turn == TurnAt(|plan.ids|, k + 1)
  {}

  /** A beat that is out at the server is the next one on the script, and its player's turn. */
  lemma OutstandingIsNext(plan: Plan, t: Table, i: nat)
    requires PlanOk(plan) && Inv(plan, t) && i < |plan.ids|
    requires t.inbox[i] != [] || t.running[i].Some?
    ensures !t.failed && |t.log| < |plan.script| && t.players[i] == Player(|t.log|, Awaiting)
    ensures i == TurnAt(|plan.ids|, |t.log|)
    ensures t.inbox[i] != [] ==> t.inbox[i] == [plan.script[|t.log|].intent] && t.running[i] == None
    ensures t.running[i].Some? ==> t.inbox[i] == [] && t.running[i].value == plan.script[|t.log|].intent
  {
    assert PlayerOk(plan, i, t.players[i], t.inbox[i], t.running[i], |t.log|, t.failed);
  }

  // --- one component at a time ---

  lemma PlayerReplaced(plan: Plan, players: seq<Player>, inbox: seq<seq<string>>, running: seq<Option<string>>,
                       done: nat, failed: bool, i: nat, p: Player, ib: seq<string>, rn: Option<string>)
    requires PlayersOk(plan, players, inbox, running, done, failed) && i < |players|
    requires PlayerOk(plan, i, p, ib, rn, done, failed)
    ensures PlayersOk(plan, players[i := p], inbox[i := ib], running[i := rn], done, failed)
  {}

  lemma GateReplaced(players: seq<Player>, held: set<nat>, done: nat, i: nat, p: Player)
    requires GatesOk(players, held, done) && i < |players|
    requires p.phase != AtGate ==> p.beat !in held
    ensures GatesOk(players[i := p], held, done)
  {}

  lemma GatesAfterCommit(players: seq<Player>, held: set<nat>, done: nat)
    requires GatesOk(players, held, done) && done !in held
    ensures GatesOk(players, held, done + 1)
  {}

  lemma LogExtended(plan: Plan, log: seq<Frame>)
    requires LogIsScript(plan, log) && |log| < |plan.script|
    ensures LogIsScript(plan, log + [Frame(plan.ids[TurnAt(|plan.ids|, |log|)], plan.script[|log|].intent)])
  {
    var longer := log + [Frame(plan.ids[TurnAt(|plan.ids|, |log|)], plan.script[|log|].intent)];
    forall k | 0 <= k < |longer|
      ensures longer[k] == Frame(plan.ids[TurnAt(|plan.ids|, k)], plan.script[k].intent)
    {
      if k < |log| { assert longer[k] == log[k]; }
    }
  }

  lemma DirectorLater(plan: Plan, next: nat, watch: Watch, landed: set<nat>, done: nat)
    requires DirectorOk(plan, next, watch, landed, done)
    ensures DirectorOk(plan, next, watch, landed, done + 1)
  {}

  lemma Unchanged<T>(s: seq<T>, i: nat)
    requires i < |s|
    ensures s[i := s[i]] == s
  {}

  // --- one move at a time ---

  lemma PassKeeps(plan: Plan, t: Table, i: nat)
    requires PlanOk(plan) && Inv(plan, t) && Enabled(plan, t, Pass(i))
    ensures Inv(plan, Do(plan, t, Pass(i)))
  {
    var p := t.players[i].(phase := Counting);
    assert PlayerOk(plan, i, t.players[i], t.inbox[i], t.running[i], |t.log|, t.failed);
    Unchanged(t.inbox, i);
    Unchanged(t.running, i);
    PlayerReplaced(plan, t.players, t.inbox, t.running, |t.log|, t.failed, i, p, t.inbox[i], t.running[i]);
    GateReplaced(t.players, t.held, |t.log|, i, p);
  }

  lemma SendKeeps(plan: Plan, t: Table, i: nat)
    requires PlanOk(plan) && Inv(plan, t) && Enabled(plan, t, Send(i))
    ensures Inv(plan, Do(plan, t, Send(i)))
  {
    var p := t.players[i].(phase := Awaiting);
    assert PlayerOk(plan, i, t.players[i], t.inbox[i], t.running[i], |t.log|, t.failed);
    Unchanged(t.running, i);
    PlayerReplaced(plan, t.players, t.inbox, t.running, |t.log|, t.failed, i, p,
                   t.inbox[i] + [plan.script[p.beat].intent], t.running[i]);
    GateReplaced(t.players, t.held, |t.log|, i, p);
  }

  lemma Admission(plan: Plan, t: Table, i: nat)
    requires PlanOk(plan) && Inv(plan, t) && Enabled(plan, t, Receive(i))
    ensures Do(plan, t, Receive(i))
         == t.(inbox := t.inbox[i := []], running := t.running[i := Some(plan.script[|t.log|].intent)])
  {
    OutstandingIsNext(plan, t, i);
    assert t.inbox[i][1..] == [];
    assert Holder(t.roster) == Some(plan.ids[i]);
  }

  lemma ReceiveKeeps(plan: Plan, t: Table, i: nat)
    requires PlanOk(plan) && Inv(plan, t) && Enabled(plan, t, Receive(i))
    ensures Inv(plan, Do(plan, t, Receive(i)))
  {
    OutstandingIsNext(plan, t, i);
    Admission(plan, t, i);
    assert PlayerOk(plan, i, t.players[i], t.inbox[i], t.running[i], |t.log|, t.failed);
    Unchanged(t.players, i);
    PlayerReplaced(plan, t.players, t.inbox, t.running, |t.log|, t.failed, i, t.players[i], [],
                   Some(plan.script[|t.log|].intent));
  }

  lemma PlayersAfterCommit(plan: Plan, t: Table, i: nat)
    requires PlanOk(plan) && Inv(plan, t) && i < |plan.ids| && t.running[i].Some?
    ensures PlayersOk(plan, t.players, t.inbox, t.running[i := None], |t.log| + 1, t.failed)
  {
    OutstandingIsNext(plan, t, i);
    forall j | 0 <= j < |plan.ids|
      ensures PlayerOk(plan, j, t.players[j], t.inbox[j], t.running[i := None][j], |t.log| + 1, t.failed)
    {
      assert PlayerOk(plan, j, t.players[j], t.inbox[j], t.running[j], |t.log|, t.failed);
    }
  }

  lemma PlayersAfterFailure(plan: Plan, t: Table, i: nat)
    requires PlanOk(plan) && Inv(plan, t) && i < |plan.ids| && t.running[i].Some?
    ensures PlayersOk(plan, t.players, t.inbox, t.running[i := None], |t.log|, true)
  {
    OutstandingIsNext(plan, t, i);
    forall j | 0 <= j < |plan.ids|
      ensures PlayerOk(plan, j, t.players[j], t.inbox[j], t.running[i := None][j], |t.log|, true)
    {
      assert PlayerOk(plan, j, t.players[j], t.inbox[j], t.running[j], |t.log|, t.failed);
    }
  }

  lemma CommitKeeps(plan: Plan, t: Table, i: nat)
    requires PlanOk(plan) && Inv(plan, t) && Enabled(plan, t, CommitBeat(i))
    ensures Inv(plan, Do(plan, t, CommitBeat(i)))
  {
    OutstandingIsNext(plan, t, i);
    PlayersAfterCommit(plan, t, i);
    TurnAdvances(plan, t.roster, |t.log|);
    LogExtended(plan, t.log);
    DirectorLater(plan, t.nextHook, t.watch, t.landed, |t.log|);
    GatesAfterCommit(t.players, t.held, |t.log|);
  }

  lemma FailKeeps(plan: Plan, t: Table, i: nat)
    requires PlanOk(plan) && Inv(plan, t) && Enabled(plan, t, FailBeat(i))
    ensures Inv(plan, Do(plan, t, FailBeat(i)))
  {
    OutstandingIsNext(plan, t, i);
    PlayersAfterFailure(plan, t, i);
    TurnAdvances(plan, t.roster, |t.log|);
  }

  lemma DeliverKeeps(plan: Plan, t: Table, i: nat)
    requires PlanOk(plan) && Inv(plan, t) && Enabled(plan, t, Deliver(i))
    ensures Inv(plan, Do(plan, t, Deliver(i)))
  {}

  /** Intents are unique, so the frame found by its intent is the beat of that intent. */
  lemma ShownIsTheBeat(plan: Plan, log: seq<Frame>, seen: nat, b: nat)
    requires PlanOk(plan) && LogIsScript(plan, log) && seen <= |log| && b < |plan.script|
    ensures FirstShown(log[..seen], plan.script[b].intent) == if b < seen then Some(b) else None
  {
    var r := FirstShown(log[..seen], plan.script[b].intent);
    if b < seen {
      assert log[..seen][b].intent == plan.script[b].intent;
    }
    if r.Some? {
      assert log[r.value].intent == plan.script[r.value].intent;
    }
  }

  lemma Confirmation(plan: Plan, t: Table, i: nat)
    requires PlanOk(plan) && Inv(plan, t) && Enabled(plan, t, Confirm(i))
    ensures t.players[i].beat < |t.log|
    ensures Do(plan, t, Confirm(i))
         == t.(players := t.players[i := Player(NextBeat(plan.script, i, t.players[i].beat + 1), AtGate)])
  {
    var b := t.players[i].beat;
    ShownIsTheBeat(plan, t.log, t.seen[i], b);
    assert PlayerOk(plan, i, t.players[i], t.inbox[i], t.running[i], |t.log|, t.failed);
    assert t.log[b] == Frame(plan.ids[i], plan.script[b].intent);
  }

  lemma NextAfter(plan: Plan, i: nat, p: Player, inbox: seq<string>, running: Option<string>, done: nat, failed: bool)
    requires PlayerOk(plan, i, p, inbox, running, done, failed)
    requires p.phase == Awaiting && p.beat < done <= |plan.script|
    ensures PlayerOk(plan, i, Player(NextBeat(plan.script, i, p.beat + 1), AtGate), inbox, running, done, failed)
  {}

  lemma PlayersAfterConfirm(plan: Plan, t: Table, i: nat)
    requires PlanOk(plan) && Inv(plan, t) && i < |plan.ids| && t.players[i].phase == Awaiting
    requires t.players[i].beat < |t.log|
    ensures t.players[i].beat < |plan.script|
    ensures var p := Player(NextBeat(plan.script, i, t.players[i].beat + 1), AtGate);
      PlayersOk(plan, t.players[i := p], t.inbox, t.running, |t.log|, t.failed)
  {
    assert PlayerOk(plan, i, t.players[i], t.inbox[i], t.running[i], |t.log|, t.failed);
    var p := Player(NextBeat(plan.script, i, t.players[i].beat + 1), AtGate);
    NextAfter(plan, i, t.players[i], t.inbox[i], t.running[i], |t.log|, t.failed);
    Unchanged(t.inbox, i);
    Unchanged(t.running, i);
    PlayerReplaced(plan, t.players, t.inbox, t.running, |t.log|, t.failed, i, p, t.inbox[i], t.running[i]);
  }

  lemma ConfirmKeeps(plan: Plan, t: Table, i: nat)
    requires PlanOk(plan) && Inv(plan, t) && Enabled(plan, t, Confirm(i))
    ensures Inv(plan, Do(plan, t, Confirm(i)))
  {
    Confirmation(plan, t, i);
    PlayersAfterConfirm(plan, t, i);
    GateReplaced(t.players, t.held, |t.log|, i, Player(NextBeat(plan.script, i, t.players[i].beat + 1), AtGate));
  }

  /** Gates of later hooks are later gates. */
  lemma {:induction false} GatesAreLater(plan: Plan, from: nat, h: nat)
    requires HooksInOrder(plan) && from <= |plan.hooks|
    requires from < |plan.hooks| ==> h < plan.hooks[from]
    ensures forall b :: b in GatesFrom(plan, from) ==> h + 1 < b < |plan.script|
    decreases |plan.hooks| - from
  {
    if from < |plan.hooks| { GatesAreLater(plan, from + 1, plan.hooks[from]); }
  }

  lemma GateReleased(plan: Plan, next: nat)
    requires HooksInOrder(plan) && next < |plan.hooks|
    ensures GatesFrom(plan, next) - {plan.hooks[next] + 1} == GatesFrom(plan, next + 1)
  {
    GatesAreLater(plan, next + 1, plan.hooks[next]);
  }

  lemma FewerGates(players: seq<Player>, held: set<nat>, done: nat, b: nat)
    requires GatesOk(players, held, done)
    ensures GatesOk(players, held - {b}, done)
  {}

  lemma DirectorLands(plan: Plan, next: nat, landed: set<nat>, done: nat)
    requires HooksInOrder(plan) && DirectorOk(plan, next, Acting, landed, done) && next < |plan.hooks|
    ensures DirectorOk(plan, next, Releasing, landed + {plan.hooks[next]}, done)
  {}

  lemma DirectorReleases(plan: Plan, next: nat, landed: set<nat>, done: nat)
    requires DirectorOk(plan, next, Releasing, landed, done) && next < |plan.hooks|
    ensures DirectorOk(plan, next + 1, Watching, landed, done)
  {}

  lemma SeeKeeps(plan: Plan, t: Table)
    requires PlanOk(plan) && Inv(plan, t) && Enabled(plan, t, See)
    ensures Inv(plan, Do(plan, t, See))
  {
    ShownIsTheBeat(plan, t.log, t.seen[0], plan.hooks[t.nextHook]);
  }

  lemma LandKeeps(plan: Plan, t: Table)
    requires PlanOk(plan) && Inv(plan, t) && Enabled(plan, t, Land)
    ensures Inv(plan, Do(plan, t, Land))
  {
    DirectorLands(plan, t.nextHook, t.landed, |t.log|);
  }

  lemma ReleaseKeeps(plan: Plan, t: Table)
    requires PlanOk(plan) && Inv(plan, t) && Enabled(plan, t, Release)
    ensures Inv(plan, Do(plan, t, Release))
  {
    GateReleased(plan, t.nextHook);
    FewerGates(t.players, t.held, |t.log|, plan.hooks[t.nextHook] + 1);
    DirectorReleases(plan, t.nextHook, t.landed, |t.log|);
  }

  lemma MoveKeeps(plan: Plan, t: Table, m: Move)
    requires PlanOk(plan) && Inv(plan, t) && Enabled(plan, t, m)
    ensures Inv(plan, Do(plan, t, m))
  {
    match m
    case Pass(i) => PassKeeps(plan, t, i);
    case Send(i) => SendKeeps(plan, t, i);
    case Receive(i) => ReceiveKeeps(plan, t, i);
    case CommitBeat(i) => CommitKeeps(plan, t, i);
    case FailBeat(i) => FailKeeps(plan, t, i);
    case Deliver(i) => DeliverKeeps(plan, t, i);
    case Confirm(i) => ConfirmKeeps(plan, t, i);
    case See => SeeKeeps(plan, t);
    case Land => LandKeeps(plan, t);
    case Release => ReleaseKeeps(plan, t);
    case Stop =>
  }

  // --- whole runs ---

  lemma {:induction false} RunKeeps(plan: Plan, t: Table, moves: seq<Move>, end: Table)
    requires PlanOk(plan) && Inv(plan, t) && IsRun(plan, t, moves, end)
    ensures Inv(plan, end)
    decreases |moves|
  {
    if moves != [] {
      MoveKeeps(plan, t, moves[0]);
      RunKeeps(plan, Do(plan, t, moves[0]), moves[1..], end);
    }
  }

  lemma ReachableInv(plan: Plan, t: Table)
    requires PlanOk(plan) && Reachable(plan, t)
    ensures Inv(plan, t)
  {
    var moves :| IsRun(plan, Opening(plan), moves, t);
    OpeningInv(plan);
    RunKeeps(plan, Opening(plan), moves, t);
  }

  /** `k` rotations of a ring of `n` end at `k % n`. */
  lemma {:induction false} TurnAtIsMod(n: nat, k: nat)
    requires n > 0
    ensures TurnAt(n, k) == k % n
  {
    if k > 0 {
      TurnAtIsMod(n, k - 1);
      ModStep(n, k - 1);
    }
  }

  lemma ModStep(n: nat, k: nat)
    requires n > 0
    ensures (k + 1) % n == Wrapped(k % n + 1, n)
  {
    var q, r := k / n, k % n;
    assert k == n * q + r;
    if r + 1 == n {
      assert k + 1 == n * (q + 1);
      ModUnique(n, q + 1, 0);
    } else {
      assert k + 1 == n * q + (r + 1);
      ModUnique(n, q, r + 1);
    }
  }

  lemma ModUnique(n: nat, q: nat, r: nat)
    requires r < n
    ensures (n * q + r) % n == r
  {
    var x := n * q + r;
    var d := x / n - q;
    assert x % n == r - n * d;
    MultipleIsFar(n, d);
  }

  lemma MultipleIsFar(n: nat, d: int)
    ensures d >= 1 ==> n * d >= n
    ensures d <= -1 ==> n * d <= 0 - n
  {}

  /** Joining one at a time, each for the first time, makes a ring in joining order whose first
      member holds the turn. */
  lemma {:induction false} JoinsFormTheRing(ids: seq<Id>)
    requires NoDup(ids)
    ensures var r := Connected(ids);
            && r.ring == ids && r.turn == 0
            && (forall p :: p in r.conns <==> p in ids)
  {
    if ids != [] {
      JoinsFormTheRing(ids[..|ids| - 1]);
      SplitLast(ids);
      var r := Connected(ids[..|ids| - 1]);
      if r.ring != [] { assert Holder(r) == Some(r.ring[0]); }
    }
  }

  /** The roster after these participants connect, in this order. */
  function Connected(ids: seq<Id>): Roster {
    if ids == [] then EMPTY else Joined(None, Connected(ids[..|ids| - 1]), ids[|ids| - 1])
  }

  /** In every interleaving, faults included, what committed is the beginning of the script,
      each beat under its owner's name, nobody is ever told to wait its turn, and every client
      has received the same beats in the same order. */
  lemma LogStaysOnScript(plan: Plan, t: Table)
    requires PlanOk(plan) && Reachable(plan, t)
    ensures |t.log| <= |plan.script|
    ensures forall k :: 0 <= k < |t.log| ==>
              t.log[k] == Frame(plan.ids[k % |plan.ids|], plan.script[k].intent)
    ensures t.refused == 0
    ensures forall i, j :: 0 <= i < |t.seen| && 0 <= j < |t.seen| && t.seen[i] <= t.seen[j] <= |t.log| ==>
              t.log[..t.seen[i]] <= t.log[..t.seen[j]]
  {
    ReachableInv(plan, t);
    forall k | 0 <= k < |t.log|
      ensures t.log[k] == Frame(plan.ids[k % |plan.ids|], plan.script[k].intent)
    {
      TurnAtIsMod(|plan.ids|, k);
    }
  }

  /** The gate after a hook is open only once the director is past the hook. */
  lemma {:induction false} OpenGateIsPast(plan: Plan, next: nat, j: nat)
    requires next <= |plan.hooks| && j < |plan.hooks|
    requires plan.hooks[j] + 1 < |plan.script| && plan.hooks[j] + 1 !in GatesFrom(plan, next)
    ensures j < next
    decreases |plan.hooks| - next
  {
    if next < |plan.hooks| { OpenGateIsPast(plan, next + 1, j); }
  }

  /** The intent after a hooked beat is sent only once the hook's canon has landed. */
  lemma CanonLandsFirst(plan: Plan, t: Table, i: nat)
    requires PlanOk(plan) && Reachable(plan, t) && Shaped(plan, t) && Enabled(plan, t, Send(i))
    ensures var b := t.players[i].beat; b > 0 && b - 1 in plan.hooks ==> b - 1 in t.landed
  {
    ReachableInv(plan, t);
    var b := t.players[i].beat;
    if b > 0 && b - 1 in plan.hooks {
      var j: nat :| j < |plan.hooks| && plan.hooks[j] == b - 1;
      OpenGateIsPast(plan, t.nextHook, j);
    }
  }

  lemma {:induction false} PendingGateIsHeld(plan: Plan, next: nat, j: nat)
    requires next <= j < |plan.hooks| && plan.hooks[j] + 1 < |plan.script|
    ensures plan.hooks[j] + 1 in GatesFrom(plan, next)
    decreases j - next
  {
    if next < j { PendingGateIsHeld(plan, next + 1, j); }
  }

  /** While the director acts on a hook, the table stands still: the hooked beat is the last one
      committed and no intent is on its way. */
  lemma TableIsHeld(plan: Plan, t: Table)
    requires PlanOk(plan) && Reachable(plan, t)
    requires t.watch != Watching && t.nextHook < |plan.hooks| && plan.hooks[t.nextHook] + 1 < |plan.script|
    ensures |t.log| == plan.hooks[t.nextHook] + 1
    ensures |t.inbox| == |t.running| == |plan.ids|
    ensures forall i :: 0 <= i < |plan.ids| ==> t.inbox[i] == [] && t.running[i] == None
  {
    ReachableInv(plan, t);
    PendingGateIsHeld(plan, t.nextHook, t.nextHook);
    forall i | 0 <= i < |plan.ids| ensures t.inbox[i] == [] && t.running[i] == None {
      assert PlayerOk(plan, i, t.players[i], t.inbox[i], t.running[i], |t.log|, t.failed);
    }
  }
}
