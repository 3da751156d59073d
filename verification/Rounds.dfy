/** How a round ends, and how a battle does. */
module Rounds {
  import opened Common
  import opened Grid
  import opened Skirmish
  import opened Tactics

  /** `holdRounds` and `collapseRound` are the scripted endings; zero switches one off. */
  datatype Script = Script(objective: Option<Pos>, holdRounds: int, collapseRound: int)

  const MAX_ROUNDS := 100

  datatype Outcome = Win | Loss | Wipe | Draw

  function OutcomeOf(us: seq<Fighter>): Outcome {
    if AnyOn(us, Company) && !AnyOn(us, Enemy) then Win
    else if AnyOn(us, Enemy) && !AnyOn(us, Company) then Loss
    else if Empty(us) then Wipe
    else Draw
  }

  function FirstOn(us: seq<Fighter>, team: Team): (k: nat)
    requires AnyOn(us, team)
    ensures k < |us| && us[k].OnBoard() && us[k].team == team
  {
    if us[0].OnBoard() && us[0].team == team then 0
    else
      assert us == [us[0]] + us[1..];
      1 + FirstOn(us[1..], team)
  }

  /** A lone survivor of the company facing enemies is credited with the round. */
  function LoneStand(f: Field): Field {
    if CountOn(f.us, Company) == 1 && AnyOn(f.us, Company) && AnyOn(f.us, Enemy) then
      var k := FirstOn(f.us, Company);
      Set(f, k, f.us[k].(alone := f.us[k].alone + 1))
    else f
  }

  /** The objective has been held long enough with company next to it. */
  predicate AttackersBreak(us: seq<Fighter>, s: Script, rnd: nat) {
    && s.holdRounds != 0 && rnd >= s.holdRounds && s.objective.Some?
    && (exists j :: 0 <= j < |us| && us[j].OnBoard() && us[j].team == Company
                    && Chebyshev(us[j].pos, s.objective.value) <= 1)
    && AnyOn(us, Enemy)
  }

  /** Every enemy still on the board flees. */
  function MeltAwayUpTo(f: Field, n: nat): (g: Field)
    requires n <= |f.us|
    ensures |g.us| == |f.us|
    decreases n
  {
    if n == 0 then f
    else
      var g := MeltAwayUpTo(f, n - 1);
      if f.us[n - 1].OnBoard() && f.us[n - 1].team == Enemy then Fled(g, n - 1) else g
  }

  /** The site kills everyone still on the board. */
  function CollapseUpTo(f: Field, n: nat): (g: Field)
    requires n <= |f.us|
    ensures |g.us| == |f.us|
    decreases n
  {
    if n == 0 then f
    else
      var g := CollapseUpTo(f, n - 1);
      if f.us[n - 1].OnBoard() then Slain(g, n - 1, None) else g
  }

  function AfterHold(f: Field, s: Script, rnd: nat): Field {
    if AttackersBreak(f.us, s, rnd) then MeltAwayUpTo(f, |f.us|) else f
  }

  predicate Collapses(us: seq<Fighter>, s: Script, rnd: nat) {
    s.collapseRound != 0 && rnd >= s.collapseRound && !Over(us)
  }

  function AfterCollapse(f: Field, s: Script, rnd: nat): Field {
    if Collapses(f.us, s, rnd) then CollapseUpTo(f, |f.us|) else f
  }

  /** The field at the end of round `rnd`. */
  function RoundEnd(f: Field, s: Script, rnd: nat): Field {
    AfterCollapse(AfterHold(LoneStand(f), s, rnd), s, rnd)
  }

  /** Whether the site comes down at the end of round `rnd`. */
  predicate CollapsesAt(f: Field, s: Script, rnd: nat) {
    Collapses(AfterHold(LoneStand(f), s, rnd).us, s, rnd)
  }

  // --- the end of a round keeps the field sound ---

  lemma CreditKeepsSound(board: Board, f: Field, k: nat)
    requires board.Valid() && Sound(board, f) && k < |f.us| && f.us[k].OnBoard()
    ensures Sound(board, Set(f, k, f.us[k].(alone := f.us[k].alone + 1)))
  {
    OwnTileIsFree(board, f.us, k);
    SetKeepsSound(board, f, k, f.us[k].(alone := f.us[k].alone + 1));
  }

  lemma LoneStandKeepsSound(board: Board, f: Field)
    requires board.Valid() && Sound(board, f)
    ensures Sound(board, LoneStand(f))
  {
    if LoneStand(f) != f {
      var k := FirstOn(f.us, Company);
      CreditKeepsSound(board, f, k);
      assert LoneStand(f) == Set(f, k, f.us[k].(alone := f.us[k].alone + 1));
    }
  }

  lemma LoneStandShape(f: Field)
    ensures |LoneStand(f).us| == |f.us|
    ensures forall j :: 0 <= j < |f.us| ==>
      LoneStand(f).us[j].OnBoard() == f.us[j].OnBoard() && LoneStand(f).us[j].team == f.us[j].team
  {}

  lemma {:induction false} MeltAwayShape(f: Field, n: nat)
    requires n <= |f.us|
    ensures forall j :: n <= j < |f.us| ==> MeltAwayUpTo(f, n).us[j] == f.us[j]
    ensures forall j :: 0 <= j < n ==>
      MeltAwayUpTo(f, n).us[j].OnBoard() == (f.us[j].OnBoard() && f.us[j].team == Company)
    decreases n
  {
    if n > 0 { MeltAwayShape(f, n - 1); }
  }

  lemma RouterKeepsSound(board: Board, g: Field, i: nat, flees: bool)
    requires board.Valid() && i < |g.us| && Sound(board, g) && (flees ==> g.us[i].OnBoard())
    ensures Sound(board, if flees then Fled(g, i) else g)
  {
    if flees { FledKeepsSound(board, g, i); }
  }

  lemma MeltAwayUnrolls(f: Field, n: nat, g: Field, flees: bool)
    requires 0 < n <= |f.us| && g == MeltAwayUpTo(f, n - 1)
    requires flees == (f.us[n - 1].OnBoard() && f.us[n - 1].team == Enemy)
    ensures MeltAwayUpTo(f, n) == if flees then Fled(g, n - 1) else g
    ensures g.us[n - 1] == f.us[n - 1]
  {
    MeltAwayShape(f, n - 1);
  }

  lemma {:induction false} MeltAwayKeepsSound(board: Board, f: Field, n: nat)
    requires board.Valid() && Sound(board, f) && n <= |f.us|
    ensures Sound(board, MeltAwayUpTo(f, n))
    decreases n
  {
    if n == 0 {
      assert MeltAwayUpTo(f, 0) == f;
    } else {
      var g, flees := MeltAwayUpTo(f, n - 1), f.us[n - 1].OnBoard() && f.us[n - 1].team == Enemy;
      MeltAwayUnrolls(f, n, g, flees);
      MeltAwayKeepsSound(board, f, n - 1);
      RouterKeepsSound(board, g, n - 1, flees);
    }
  }

  lemma {:induction false} CollapseShape(f: Field, n: nat)
    requires n <= |f.us|
    ensures forall j :: n <= j < |f.us| ==> CollapseUpTo(f, n).us[j] == f.us[j]
    ensures forall j :: 0 <= j < n ==> !CollapseUpTo(f, n).us[j].OnBoard()
    decreases n
  {
    if n > 0 { CollapseShape(f, n - 1); }
  }

  lemma CrushedKeepsSound(board: Board, g: Field, i: nat, falls: bool)
    requires board.Valid() && i < |g.us| && Sound(board, g) && (falls ==> g.us[i].OnBoard())
    ensures Sound(board, if falls then Slain(g, i, None) else g)
  {
    if falls { SlainKeepsSound(board, g, i, None); }
  }

  lemma CollapseUnrolls(f: Field, n: nat, g: Field)
    requires 0 < n <= |f.us| && g == CollapseUpTo(f, n - 1)
    ensures CollapseUpTo(f, n) == if f.us[n - 1].OnBoard() then Slain(g, n - 1, None) else g
    ensures g.us[n - 1] == f.us[n - 1]
  {
    CollapseShape(f, n - 1);
  }

  lemma {:induction false} CollapseKeepsSound(board: Board, f: Field, n: nat)
    requires board.Valid() && Sound(board, f) && n <= |f.us|
    ensures Sound(board, CollapseUpTo(f, n))
    decreases n
  {
    if n == 0 {
      assert CollapseUpTo(f, 0) == f;
    } else {
      var g := CollapseUpTo(f, n - 1);
      CollapseUnrolls(f, n, g);
      CollapseKeepsSound(board, f, n - 1);
      CrushedKeepsSound(board, g, n - 1, f.us[n - 1].OnBoard());
    }
  }

  lemma AfterHoldKeepsSound(board: Board, f: Field, s: Script, rnd: nat)
    requires board.Valid() && Sound(board, f)
    ensures Sound(board, AfterHold(f, s, rnd)) && |AfterHold(f, s, rnd).us| == |f.us|
    ensures !Empty(f.us) ==> !Empty(AfterHold(f, s, rnd).us)
  {
    if AttackersBreak(f.us, s, rnd) {
      MeltAwayKeepsSound(board, f, |f.us|);
      MeltAwayShape(f, |f.us|);
      var j :| 0 <= j < |f.us| && f.us[j].OnBoard() && f.us[j].team == Company;
      assert MeltAwayUpTo(f, |f.us|).us[j].OnBoard();
    }
  }

  lemma LoneStandKeepsSides(f: Field)
    ensures forall team :: AnyOn(LoneStand(f).us, team) <==> AnyOn(f.us, team)
  {
    LoneStandShape(f);
    var g := LoneStand(f);
    forall team ensures AnyOn(g.us, team) <==> AnyOn(f.us, team) {
      if AnyOn(g.us, team) {
        var j :| 0 <= j < |g.us| && g.us[j].OnBoard() && g.us[j].team == team;
        assert f.us[j].OnBoard();
      }
      if AnyOn(f.us, team) {
        var j :| 0 <= j < |f.us| && f.us[j].OnBoard() && f.us[j].team == team;
        assert g.us[j].OnBoard();
      }
    }
  }

  /** A round that somebody survives ends with nobody left exactly when the site collapses. */
  lemma RoundEndEmptyIffCollapse(board: Board, f: Field, s: Script, rnd: nat)
    requires board.Valid() && Sound(board, f)
    ensures Sound(board, RoundEnd(f, s, rnd))
    ensures CollapsesAt(f, s, rnd) ==> Empty(RoundEnd(f, s, rnd).us)
    ensures !Empty(f.us) && !CollapsesAt(f, s, rnd) ==> !Empty(RoundEnd(f, s, rnd).us)
    ensures s.collapseRound != 0 && rnd >= s.collapseRound ==> Over(RoundEnd(f, s, rnd).us)
  {
    LoneStandKeepsSound(board, f);
    LoneStandKeepsSides(f);
    var g := AfterHold(LoneStand(f), s, rnd);
    AfterHoldKeepsSound(board, LoneStand(f), s, rnd);
    if Collapses(g.us, s, rnd) {
      CollapseKeepsSound(board, g, |g.us|);
      CollapseShape(g, |g.us|);
    }
  }

  lemma {:induction false} MeltAwayCasualties(f: Field, n: nat)
    requires n <= |f.us|
    ensures MeltAwayUpTo(f, n).casualties == f.casualties
    decreases n
  {
    if n > 0 { MeltAwayCasualties(f, n - 1); }
  }

  lemma {:induction false} CollapseCasualties(f: Field, n: nat)
    requires n <= |f.us|
    ensures f.casualties <= CollapseUpTo(f, n).casualties
    decreases n
  {
    if n > 0 { CollapseCasualties(f, n - 1); }
  }

  /** The dead stay listed, in the order they died. */
  lemma RoundEndExtends(f: Field, s: Script, rnd: nat)
    ensures f.casualties <= RoundEnd(f, s, rnd).casualties
  {
    var g := LoneStand(f);
    MeltAwayCasualties(g, |g.us|);
    var h := AfterHold(g, s, rnd);
    CollapseCasualties(h, |h.us|);
  }
}
