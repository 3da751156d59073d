/** Without a failed beat or an aborted run, the crew always finishes its script. */
module CrewProgress {
  import opened Common
  import opened TurnRing
  import opened Crew
  import opened CrewSafety

  predicate Fault(m: Move) { m.FailBeat? || m.Stop? }

  /** Everything has been played, received by everyone, and followed up by the director. */
  ghost predicate Finished(plan: Plan, t: Table)
    requires Shaped(plan, t)
  {
    && |t.log| == |plan.script|
    && t.nextHook == |plan.hooks|
    && forall i :: 0 <= i < |plan.ids| ==> t.seen[i] == |t.log| && t.players[i].beat == |plan.script|
  }

  /** Nothing is in flight: every client is up to date, the server is idle, no player is
      waiting for its commit and the director has nothing to do. */
  ghost predicate Quiet(plan: Plan, t: Table)
    requires Shaped(plan, t)
  {
    && (forall i :: 0 <= i < |plan.ids| ==>
          t.seen[i] == |t.log| && t.inbox[i] == [] && t.running[i] == None && t.players[i].phase != Awaiting)
    && t.watch == Watching
    && (t.nextHook < |plan.hooks| ==> plan.hooks[t.nextHook] >= |t.log|)
  }

  lemma ClientMoves(plan: Plan, t: Table, i: nat) returns (m: Move)
    requires PlanOk(plan) && Inv(plan, t) && !t.failed && !t.stopped && i < |plan.ids|
    requires t.seen[i] < |t.log| || t.inbox[i] != [] || t.running[i].Some?
          || (t.seen[i] == |t.log| && t.players[i].phase == Awaiting)
    ensures Enabled(plan, t, m) && !Fault(m)
  {
    if t.seen[i] < |t.log| {
      m := Deliver(i);
    } else if t.running[i].Some? {
      m := CommitBeat(i);
    } else if t.inbox[i] != [] {
      m := Receive(i);
    } else {
      m := Confirm(i);
      assert PlayerOk(plan, i, t.players[i], t.inbox[i], t.running[i], |t.log|, t.failed);
      ShownIsTheBeat(plan, t.log, t.seen[i], t.players[i].beat);
    }
  }

  lemma DirectorMoves(plan: Plan, t: Table) returns (m: Move)
    requires PlanOk(plan) && Inv(plan, t) && !t.stopped && t.seen[0] == |t.log|
    requires t.watch != Watching || (t.nextHook < |plan.hooks| && plan.hooks[t.nextHook] < |t.log|)
    ensures Enabled(plan, t, m) && !Fault(m)
  {
    match t.watch
    case Acting => m := Land;
    case Releasing => m := Release;
    case Watching =>
      m := See;
      ShownIsTheBeat(plan, t.log, t.seen[0], plan.hooks[t.nextHook]);
  }

  /** When all is quiet, the owner of the next beat can go on. */
  lemma OwnerMoves(plan: Plan, t: Table) returns (m: Move)
    requires PlanOk(plan) && Inv(plan, t) && !t.failed && !t.stopped && Quiet(plan, t)
    requires |t.log| < |plan.script|
    ensures Enabled(plan, t, m) && !Fault(m)
  {
    var i := TurnAt(|plan.ids|, |t.log|);
    var p := t.players[i];
    assert PlayerOk(plan, i, p, t.inbox[i], t.running[i], |t.log|, t.failed);
    assert plan.script[|t.log|].owner == i;
    assert p.beat == |t.log|;
    if t.nextHook < |plan.hooks| {
      GatesFromAre(plan, t.nextHook);
    }
    m := if p.phase == AtGate then Pass(i) else Send(i);
  }

  lemma GatesFromAre(plan: Plan, next: nat)
    requires HooksInOrder(plan) && next < |plan.hooks|
    ensures forall b :: b in GatesFrom(plan, next) ==> b > plan.hooks[next]
  {
    GatesAreLater(plan, next + 1, plan.hooks[next]);
  }

  lemma QuietEnd(plan: Plan, t: Table)
    requires PlanOk(plan) && Inv(plan, t) && Quiet(plan, t) && |t.log| == |plan.script|
    ensures Finished(plan, t)
  {
    forall i | 0 <= i < |plan.ids| ensures t.players[i].beat == |plan.script| {
      assert PlayerOk(plan, i, t.players[i], t.inbox[i], t.running[i], |t.log|, t.failed);
    }
  }

  /** Until the script is finished, some move other than a fault is enabled. */
  lemma SomethingCanMove(plan: Plan, t: Table) returns (m: Move)
    requires PlanOk(plan) && Inv(plan, t) && !t.failed && !t.stopped && !Finished(plan, t)
    ensures Enabled(plan, t, m) && !Fault(m)
  {
    if i :| 0 <= i < |plan.ids| && (t.seen[i] < |t.log| || t.inbox[i] != [] || t.running[i].Some?
                                    || t.players[i].phase == Awaiting) {
      m := ClientMoves(plan, t, i);
    } else if t.watch != Watching || (t.nextHook < |plan.hooks| && plan.hooks[t.nextHook] < |t.log|) {
      m := DirectorMoves(plan, t);
    } else {
      assert Quiet(plan, t);
      if |t.log| == |plan.script| { QuietEnd(plan, t); }
      m := OwnerMoves(plan, t);
    }
  }

  // --- no run goes on forever ---

  function PhaseRank(p: Phase): nat {
    match p
    case AtGate => 0
    case Counting => 1
    case Awaiting => 3
  }

  function PlayerRank(p: Player, inbox: seq<string>): int {
    4 * p.beat + PhaseRank(p.phase) - |inbox|
  }

  /** How far the first `n` players are. */
  function PlayersRank(players: seq<Player>, inbox: seq<seq<string>>, n: nat): int
    requires n <= |players| && n <= |inbox|
  {
    if n == 0 then 0 else PlayersRank(players, inbox, n - 1) + PlayerRank(players[n - 1], inbox[n - 1])
  }

  function Total(seen: seq<nat>): nat {
    if seen == [] then 0 else Total(seen[..|seen| - 1]) + seen[|seen| - 1]
  }

  function WatchRank(w: Watch): nat {
    match w
    case Watching => 0
    case Acting => 1
    case Releasing => 2
  }

  /** Everything that has happened so far, counted. */
  ghost function Score(plan: Plan, t: Table): int
    requires Shaped(plan, t)
  {
    PlayersRank(t.players, t.inbox, |plan.ids|) + Total(t.seen) + |t.log| + 3 * t.nextHook + WatchRank(t.watch)
  }

  lemma {:induction false} PlayersRankOfChange(players: seq<Player>, inbox: seq<seq<string>>,
                                               p: Player, ib: seq<string>, i: nat, n: nat)
    requires n <= |players| && n <= |inbox| && i < |players| && i < |inbox|
    ensures PlayersRank(players[i := p], inbox[i := ib], n)
         == PlayersRank(players, inbox, n)
            + if i < n then PlayerRank(p, ib) - PlayerRank(players[i], inbox[i]) else 0
  {
    if n > 0 { PlayersRankOfChange(players, inbox, p, ib, i, n - 1); }
  }

  lemma {:induction false} TotalOfChange(seen: seq<nat>, i: nat, v: nat)
    requires i < |seen|
    ensures Total(seen[i := v]) == Total(seen) - seen[i] + v
  {
    var init := seen[..|seen| - 1];
    if i < |seen| - 1 {
      TotalOfChange(init, i, v);
      assert seen[i := v][..|seen| - 1] == init[i := v];
    } else {
      assert seen[i := v][..|seen| - 1] == init;
    }
  }

  lemma PlayerMoveScores(plan: Plan, t: Table, m: Move)
    requires PlanOk(plan) && Inv(plan, t) && Enabled(plan, t, m) && (m.Pass? || m.Send? || m.Receive?)
    ensures Shaped(plan, Do(plan, t, m)) && Score(plan, Do(plan, t, m)) > Score(plan, t)
  {
    var i, t' := m.i, Do(plan, t, m);
    if m.Receive? { Admission(plan, t, i); }
    Unchanged(t.players, i);
    Unchanged(t.inbox, i);
    PlayersRankOfChange(t.players, t.inbox, t'.players[i], t'.inbox[i], i, |plan.ids|);
  }

  lemma ConfirmScores(plan: Plan, t: Table, i: nat)
    requires PlanOk(plan) && Inv(plan, t) && Enabled(plan, t, Confirm(i))
    ensures Shaped(plan, Do(plan, t, Confirm(i)))
    ensures Score(plan, Do(plan, t, Confirm(i))) > Score(plan, t)
  {
    Confirmation(plan, t, i);
    Unchanged(t.inbox, i);
    var p := Player(NextBeat(plan.script, i, t.players[i].beat + 1), AtGate);
    PlayersRankOfChange(t.players, t.inbox, p, t.inbox[i], i, |plan.ids|);
  }

  lemma DeliverScores(plan: Plan, t: Table, i: nat)
    requires Inv(plan, t) && Enabled(plan, t, Deliver(i))
    ensures Shaped(plan, Do(plan, t, Deliver(i))) && Score(plan, Do(plan, t, Deliver(i))) > Score(plan, t)
  {
    TotalOfChange(t.seen, i, t.seen[i] + 1);
  }

  lemma CommitScores(plan: Plan, t: Table, i: nat)
    requires PlanOk(plan) && Inv(plan, t) && Enabled(plan, t, CommitBeat(i))
    ensures Shaped(plan, Do(plan, t, CommitBeat(i))) && Score(plan, Do(plan, t, CommitBeat(i))) > Score(plan, t)
  {
    OutstandingIsNext(plan, t, i);
  }

  /** Every move but a fault adds to the score. */
  lemma MoveScores(plan: Plan, t: Table, m: Move)
    requires PlanOk(plan) && Inv(plan, t) && Enabled(plan, t, m) && !Fault(m)
    ensures Shaped(plan, Do(plan, t, m)) && Score(plan, Do(plan, t, m)) > Score(plan, t)
  {
    match m
    case Pass(i) => PlayerMoveScores(plan, t, m);
    case Send(i) => PlayerMoveScores(plan, t, m);
    case Receive(i) => PlayerMoveScores(plan, t, m);
    case Confirm(i) => ConfirmScores(plan, t, i);
    case Deliver(i) => DeliverScores(plan, t, i);
    case CommitBeat(i) => CommitScores(plan, t, i);
    case _ =>
  }

  /** And none of them ends the run. */
  lemma MoveGoesOn(plan: Plan, t: Table, m: Move)
    requires PlanOk(plan) && Inv(plan, t) && Enabled(plan, t, m) && !Fault(m)
    ensures Do(plan, t, m).failed == t.failed && Do(plan, t, m).stopped == t.stopped
  {
    if m.Confirm? { Confirmation(plan, t, m.i); }
    if m.Receive? { Admission(plan, t, m.i); }
  }

  function Times(n: nat, c: nat): nat {
    if n == 0 then 0 else Times(n - 1, c) + c
  }

  lemma {:induction false} PlayersRankBounds(plan: Plan, t: Table, n: nat)
    requires PlanOk(plan) && Inv(plan, t) && n <= |plan.ids|
    ensures 0 <= PlayersRank(t.players, t.inbox, n) <= Times(n, 4 * |plan.script| + 3)
  {
    if n > 0 {
      PlayersRankBounds(plan, t, n - 1);
      var i := n - 1;
      assert PlayerOk(plan, i, t.players[i], t.inbox[i], t.running[i], |t.log|, t.failed);
    }
  }

  lemma {:induction false} TotalBounds(seen: seq<nat>, c: nat)
    requires forall i :: 0 <= i < |seen| ==> seen[i] <= c
    ensures Total(seen) <= Times(|seen|, c)
  {
    if seen != [] { TotalBounds(seen[..|seen| - 1], c); }
  }

  /** More moves than this never happen without a fault. */
  function MostMoves(plan: Plan): nat {
    Times(|plan.ids|, 4 * |plan.script| + 3) + Times(|plan.ids|, |plan.script|)
      + |plan.script| + 3 * |plan.hooks| + 2
  }

  lemma ScoreBounds(plan: Plan, t: Table)
    requires PlanOk(plan) && Inv(plan, t)
    ensures 0 <= Score(plan, t) <= MostMoves(plan)
  {
    PlayersRankBounds(plan, t, |plan.ids|);
    TotalBounds(t.seen, |plan.script|);
  }

  lemma {:induction false} RunScores(plan: Plan, t: Table, moves: seq<Move>, end: Table)
    requires PlanOk(plan) && Inv(plan, t) && IsRun(plan, t, moves, end)
    requires forall m :: m in moves ==> !Fault(m)
    ensures Inv(plan, end) && Score(plan, end) >= Score(plan, t) + |moves|
    ensures end.failed == t.failed && end.stopped == t.stopped
    decreases |moves|
  {
    if moves != [] {
      MoveKeeps(plan, t, moves[0]);
      MoveScores(plan, t, moves[0]);
      MoveGoesOn(plan, t, moves[0]);
      RunScores(plan, Do(plan, t, moves[0]), moves[1..], end);
    }
  }

  /** A run without faults is no longer than the bound, and if it can go no further, the whole
      script was played, in order, to everyone. */
  lemma CrewFinishes(plan: Plan, moves: seq<Move>, t: Table)
    requires PlanOk(plan) && IsRun(plan, Opening(plan), moves, t)
    requires forall m :: m in moves ==> !Fault(m)
    ensures Inv(plan, t) && |moves| <= MostMoves(plan)
    ensures (forall m :: Enabled(plan, t, m) ==> Fault(m)) ==> Finished(plan, t)
  {
    OpeningInv(plan);
    RunScores(plan, Opening(plan), moves, t);
    ScoreBounds(plan, Opening(plan));
    ScoreBounds(plan, t);
    if !Finished(plan, t) {
      var m := SomethingCanMove(plan, t);
    }
  }
}
