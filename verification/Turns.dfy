/** The course of a battle: every unit's turn in order, round after round, with the dice each used. */
module Turns {
  import opened Common
  import opened Grid
  import opened Skirmish
  import opened Tactics
  import opened Rounds

  /** Each team's strength when the battle began. */
  datatype Strengths = Strengths(company: nat, enemy: nat) {
    function Of(team: Team): nat {
      if team == Company then company else enemy
    }
  }

  /** One unit's turn: nothing if it is off the board; else it breaks and flees, or it stands fast
      and acts. */
  ghost predicate UnitTurn(board: Board, start: Strengths, f: Field, i: nat, f': Field, dice: seq<int>)
    requires board.Valid()
  {
    && i < |f.us| && Standing(board, f.us)
    && if !f.us[i].OnBoard() then f' == f && dice == []
       else
         || MoraleStep(f, start.Of(f.us[i].team), i, true, f', dice)
         || exists n :: 0 <= n <= |dice| && StoodAndActed(board, start, f, i, f', dice, n)
  }

  ghost predicate StoodAndActed(board: Board, start: Strengths, f: Field, i: nat, f': Field, dice: seq<int>, n: nat)
    requires board.Valid() && i < |f.us| && Standing(board, f.us) && n <= |dice|
  {
    MoraleStep(f, start.Of(f.us[i].team), i, false, f, dice[..n]) && ActStep(board, f, i, f', dice[n..])
  }

  lemma StoodFast(board: Board, start: Strengths, f: Field, i: nat, f': Field, morale: seq<int>, acted: seq<int>)
    requires board.Valid() && i < |f.us| && Standing(board, f.us) && f.us[i].OnBoard()
    requires MoraleStep(f, start.Of(f.us[i].team), i, false, f, morale) && ActStep(board, f, i, f', acted)
    ensures UnitTurn(board, start, f, i, f', morale + acted)
  {
    assert (morale + acted)[..|morale|] == morale && (morale + acted)[|morale|..] == acted;
    assert StoodAndActed(board, start, f, i, f', morale + acted, |morale|);
  }

  lemma Broke(board: Board, start: Strengths, f: Field, i: nat, f': Field, morale: seq<int>)
    requires board.Valid() && i < |f.us| && Standing(board, f.us) && f.us[i].OnBoard()
    requires MoraleStep(f, start.Of(f.us[i].team), i, true, f', morale)
    ensures UnitTurn(board, start, f, i, f', morale)
  {}

  /** The field before the first turn and after each, and each turn's dice. */
  datatype Trace = Trace(fields: seq<Field>, dice: seq<seq<int>>)

  ghost predicate Steps(board: Board, start: Strengths, order: seq<nat>, t: Trace)
    requires board.Valid()
  {
    && |t.fields| == |t.dice| + 1 && |t.dice| <= |order|
    && (forall k :: 0 <= k < |t.fields| ==> Sound(board, t.fields[k]))
    && (forall k :: 0 <= k < |t.dice| ==> UnitTurn(board, start, t.fields[k], order[k], t.fields[k + 1], t.dice[k]))
  }

  predicate TookTurn(order: seq<nat>, t: Trace, k: nat)
    requires k < |order| && k < |t.fields|
  {
    order[k] < |t.fields[k].us| && t.fields[k].us[order[k]].OnBoard()
  }

  /** None of the first `n` turns ended it. */
  ghost predicate GoesOn(order: seq<nat>, t: Trace, n: int) {
    forall k :: 0 <= k < n && k < |order| && k + 1 < |t.fields| && TookTurn(order, t, k) ==> !Over(t.fields[k + 1].us)
  }

  /** The turns of a round: in initiative order, until the last unit or until a side is gone after
      somebody's turn. Every field on the way is sound. */
  ghost predicate PlayedTurns(board: Board, start: Strengths, order: seq<nat>, t: Trace)
    requires board.Valid()
  {
    && Steps(board, start, order, t)
    && GoesOn(order, t, |t.dice| - 1)
    && (|t.dice| < |order| ==>
          |t.dice| > 0 && TookTurn(order, t, |t.dice| - 1) && Over(t.fields[|t.dice|].us))
  }

  function Flat(dice: seq<seq<int>>): seq<int> {
    if dice == [] then [] else Flat(dice[..|dice| - 1]) + dice[|dice| - 1]
  }

  function Extended(t: Trace, f: Field, dice: seq<int>): Trace {
    Trace(t.fields + [f], t.dice + [dice])
  }

  lemma StepsExtended(board: Board, start: Strengths, order: seq<nat>, t: Trace, f: Field, dice: seq<int>)
    requires board.Valid() && Steps(board, start, order, t) && |t.dice| < |order| && Sound(board, f)
    requires UnitTurn(board, start, t.fields[|t.dice|], order[|t.dice|], f, dice)
    ensures Steps(board, start, order, Extended(t, f, dice))
  {
    var u := Extended(t, f, dice);
    forall k | 0 <= k < |u.dice|
      ensures UnitTurn(board, start, u.fields[k], order[k], u.fields[k + 1], u.dice[k])
    {
      if k < |t.dice| {
        assert u.fields[k] == t.fields[k] && u.fields[k + 1] == t.fields[k + 1] && u.dice[k] == t.dice[k];
      }
    }
  }

  lemma GoesOnExtended(order: seq<nat>, t: Trace, f: Field, dice: seq<int>)
    requires |t.fields| == |t.dice| + 1 && |t.dice| < |order| && GoesOn(order, t, |t.dice|)
    ensures var u := Extended(t, f, dice);
      && GoesOn(order, u, |t.dice|)
      && (!TookTurn(order, t, |t.dice|) || !Over(f.us) ==> GoesOn(order, u, |u.dice|))
      && (TookTurn(order, u, |t.dice|) <==> TookTurn(order, t, |t.dice|))
  {
    var u := Extended(t, f, dice);
    assert forall k :: 0 <= k <= |t.dice| ==> u.fields[k] == t.fields[k];
    assert u.fields[|u.dice|] == f;
    forall k | 0 <= k < |u.dice| && TookTurn(order, u, k) && (k == |t.dice| ==> !Over(f.us))
      ensures !Over(u.fields[k + 1].us)
    {
      assert TookTurn(order, t, k);
    }
  }

  lemma FlatExtended(t: Trace, f: Field, dice: seq<int>)
    ensures Flat(Extended(t, f, dice).dice) == Flat(t.dice) + dice
  {
    assert (t.dice + [dice])[..|t.dice|] == t.dice;
  }

  // --- the rounds of a battle ---

  function LastField(t: Trace): Field
    requires t.fields != []
  {
    t.fields[|t.fields| - 1]
  }

  /** The field at the end of round `n`, from how its turns were played. */
  function After(s: Script, rounds: seq<Trace>, n: nat): Field
    requires 0 < n <= |rounds| && rounds[n - 1].fields != []
  {
    RoundEnd(LastField(rounds[n - 1]), s, n)
  }

  /** Where round `r` starts. */
  ghost predicate StartsRight(s: Script, f: Field, rounds: seq<Trace>, r: nat)
    requires r < |rounds|
  {
    && rounds[r].fields != []
    && (r == 0 ==> rounds[r].fields[0] == f)
    && (r > 0 ==> rounds[r - 1].fields != [] && rounds[r].fields[0] == After(s, rounds, r)
                  && !Over(After(s, rounds, r).us))
  }

  ghost predicate AllPlayed(board: Board, start: Strengths, order: seq<nat>, rounds: seq<Trace>)
    requires board.Valid()
  {
    forall t :: t in rounds ==> PlayedTurns(board, start, order, t)
  }

  ghost predicate AllStartRight(s: Script, f: Field, rounds: seq<Trace>) {
    forall r :: 0 <= r < |rounds| ==> StartsRight(s, f, rounds, r)
  }

  /** Each round is played from where the last one ended, and none but the last ended with a side
      gone. */
  ghost predicate PlayedRounds(board: Board, start: Strengths, s: Script, order: seq<nat>, f: Field, rounds: seq<Trace>)
    requires board.Valid()
  {
    AllPlayed(board, start, order, rounds) && AllStartRight(s, f, rounds)
  }

  function AllDice(rounds: seq<Trace>): seq<int> {
    if rounds == [] then [] else AllDice(rounds[..|rounds| - 1]) + Flat(rounds[|rounds| - 1].dice)
  }

  lemma AfterEarlier(s: Script, rounds: seq<Trace>, t: Trace, r: nat)
    requires 0 < r <= |rounds| && rounds[r - 1].fields != []
    ensures (rounds + [t])[r - 1].fields != [] && After(s, rounds + [t], r) == After(s, rounds, r)
  {
    assert (rounds + [t])[r - 1] == rounds[r - 1];
  }

  lemma AllDiceExtended(rounds: seq<Trace>, t: Trace)
    ensures AllDice(rounds + [t]) == AllDice(rounds) + Flat(t.dice)
  {
    assert (rounds + [t])[..|rounds|] == rounds;
  }

  lemma StartsRightStill(s: Script, f: Field, rounds: seq<Trace>, t: Trace, r: nat)
    requires r < |rounds| && StartsRight(s, f, rounds, r)
    ensures StartsRight(s, f, rounds + [t], r)
  {
    assert (rounds + [t])[r] == rounds[r];
    if r > 0 { AfterEarlier(s, rounds, t, r); }
  }

  lemma StartsRightNext(s: Script, f: Field, rounds: seq<Trace>, t: Trace)
    requires t.fields != [] && (rounds != [] ==> rounds[|rounds| - 1].fields != [])
    requires t.fields[0] == if rounds == [] then f else After(s, rounds, |rounds|)
    requires rounds != [] ==> !Over(After(s, rounds, |rounds|).us)
    ensures StartsRight(s, f, rounds + [t], |rounds|)
  {
    if rounds != [] { AfterEarlier(s, rounds, t, |rounds|); }
  }

  lemma AllPlayedExtended(board: Board, start: Strengths, order: seq<nat>, rounds: seq<Trace>, t: Trace)
    requires board.Valid() && AllPlayed(board, start, order, rounds) && PlayedTurns(board, start, order, t)
    ensures AllPlayed(board, start, order, rounds + [t])
  {
    forall u | u in rounds + [t] ensures PlayedTurns(board, start, order, u) {
      assert u in rounds || u == t;
    }
  }

  lemma AllStartRightExtended(s: Script, f: Field, rounds: seq<Trace>, t: Trace)
    requires AllStartRight(s, f, rounds)
    requires t.fields != [] && (rounds != [] ==> rounds[|rounds| - 1].fields != [])
    requires t.fields[0] == if rounds == [] then f else After(s, rounds, |rounds|)
    requires rounds != [] ==> !Over(After(s, rounds, |rounds|).us)
    ensures AllStartRight(s, f, rounds + [t])
  {
    forall r | 0 <= r < |rounds + [t]| ensures StartsRight(s, f, rounds + [t], r) {
      if r < |rounds| {
        StartsRightStill(s, f, rounds, t, r);
      } else {
        StartsRightNext(s, f, rounds, t);
      }
    }
  }
}
