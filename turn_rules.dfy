/**
 * The actions that do not score: START_GAME, NEXT_PLAYER and
 * ADJUST_SCORE, the rotation index they share with the 3-dart rotation,
 * and what UNDO_SCORE leaves alone in either game.
 */
module TurnRules {
  import opened GameTypes
  import opened GameContext
  import opened Invariants

  // ---------------------------------------------------------------------
  // START_GAME
  // ---------------------------------------------------------------------

  /**
   * A new match seats the roster in order with the first player up, X01
   * players at the starting score (501 when it is missing or zero) and
   * Cricket players at 0 with an open board, zeroed statistics for every
   * seat, round 1, an empty log and no game over.
   */
  lemma StartSeatsRoster(s: GameState, roster: seq<Player>, g: GameType, settings: GameSettings)
    requires |roster| > 0
    ensures var r := Start(s, roster, g, settings);
            && |r.players| == |roster|
            && (forall i :: 0 <= i < |roster| ==>
                  && r.players[i].id == roster[i].id && r.players[i].name == roster[i].name
                  && (r.players[i].current <==> i == 0)
                  && (g == X01 ==> r.players[i] == X01Player(roster[i].id, roster[i].name, StartingScore(settings), i == 0, PlayerTotals(0, 0)))
                  && (g == Cricket ==> r.players[i].CricketPlayer? && r.players[i].score == 0
                                       && forall t: Target :: r.players[i].cricketScores[t] == Mark(0, false)))
            && r.currentTurn == CurrentTurn(roster[0].id, 0, [])
            && r.playerStats.Keys == Ids(r.players)
            && (forall id :: id in r.playerStats ==> r.playerStats[id] == Stats(0, 0, None))
            && r.turns == [] && r.currentRound == 1 && !r.gameOver
            && r.gameType == g && r.settings == settings
            && r.maxRounds == (if g == X01 then None else Rounds(settings))
  {
  }

  /** The starting score is the configured one, or 501 when it is absent or zero. */
  lemma StartingScoreDefaults(n: int, d: Option<bool>, r: Option<RoundLimit>)
    ensures StartingScore(X01Settings(0, d)) == 501
    ensures n != 0 ==> StartingScore(X01Settings(n, d)) == n
    ensures StartingScore(CricketSettings(r)) == 501
  {
  }

  /**
   * START_GAME spreads the old state and overwrites everything but
   * `winnerId`: two matches started from any two states with the same
   * roster and settings differ at most in the winner carried over.
   */
  lemma StartForgetsAllButWinner(s: GameState, s': GameState, roster: seq<Player>, g: GameType, settings: GameSettings)
    requires |roster| > 0
    ensures Start(s, roster, g, settings).winnerId == s.winnerId
    ensures Start(s, roster, g, settings) == Start(s', roster, g, settings).(winnerId := s.winnerId)
  {
  }

  // ---------------------------------------------------------------------
  // The rotation index
  // ---------------------------------------------------------------------

  /** The next index is the one after the first flagged player, wrapping; with no one flagged it is 0. */
  lemma NextIndexFollowsFlag(ps: seq<PlayerState>)
    requires |ps| > 0
    ensures forall k :: 0 <= k < |ps| && ps[k].current && (forall j :: 0 <= j < k ==> !ps[j].current) ==>
              NextIndex(ps) == (k + 1) % |ps|
    ensures (forall j :: 0 <= j < |ps| ==> !ps[j].current) ==> NextIndex(ps) == 0
  {
    var f := FindIndexCurrent(ps);
    forall k | 0 <= k < |ps| && ps[k].current && (forall j :: 0 <= j < k ==> !ps[j].current)
      ensures NextIndex(ps) == (k + 1) % |ps|
    {
      assert f == k;
    }
  }

  /** Flagging exactly player k makes k + 1, wrapping, the next index. */
  lemma RotationAdvances(ps: seq<PlayerState>, k: nat)
    requires k < |ps|
    ensures NextIndex(WithCurrent(ps, k)) == (k + 1) % |ps|
  {
    var q := WithCurrent(ps, k);
    NextIndexFollowsFlag(q);
    assert q[k].current && forall j :: 0 <= j < k ==> !q[j].current;
  }

  // ---------------------------------------------------------------------
  // NEXT_PLAYER
  // ---------------------------------------------------------------------

  /**
   * NEXT_PLAYER: the next player is up, the round goes up exactly when
   * play wraps to the first player, `gameOver` is recomputed (true only
   * for Cricket past its round limit, so it clears on X01), the turn
   * restarts and nothing else changes; the partial turn is not logged.
   */
  lemma NextRules(s: GameState)
    requires |s.players| > 0
    ensures var r := Next(s);
            var next := NextIndex(s.players);
            && r.currentRound == (if next == 0 then s.currentRound + 1 else s.currentRound)
            && (r.gameOver <==> s.gameType == Cricket && RoundLimitPassed(s.settings, r.currentRound))
            && |r.players| == |s.players|
            && (forall i :: 0 <= i < |s.players| ==> r.players[i] == s.players[i].(current := !r.gameOver && i == next))
            && r.currentTurn == CurrentTurn(s.players[next].id, 0, [])
            && r == s.(players := r.players, currentTurn := r.currentTurn, currentRound := r.currentRound, gameOver := r.gameOver)
  {
  }

  /** NEXT_PLAYER on an X01 match reopens it, even after a finish: nothing is game over there. */
  lemma NextReopensX01(s: GameState)
    requires |s.players| > 0 && s.gameType == X01
    ensures !Next(s).gameOver
    ensures Next(s).players[NextIndex(s.players)].current
  {
    NextRules(s);
  }

  /** Repeated NEXT_PLAYER presses walk the seats one at a time until the match ends. */
  lemma NextSteps(s: GameState)
    requires |s.players| > 0 && !Next(s).gameOver
    ensures NextIndex(Next(s).players) == (NextIndex(s.players) + 1) % |s.players|
  {
    RotationAdvances(s.players, NextIndex(s.players));
  }

  /**
   * On a match in progress the turn's owner is the flagged seat, so the
   * rotation index is the seat after the thrower's, wrapping.
   */
  lemma NextSeatFollowsThrower(s: GameState)
    requires WellFormed(s) && !s.gameOver
    ensures s.players[IndexOfId(s.players, s.currentTurn.playerId)].current
    ensures NextIndex(s.players) == (IndexOfId(s.players, s.currentTurn.playerId) + 1) % |s.players|
  {
    var f := FindIndexCurrent(s.players);
    var i :| 0 <= i < |s.players| && s.players[i].current;
    assert f != -1;
    PlayerByIdAt(s.players, s.currentTurn.playerId, f);
  }

  /** With seat k up, play wraps to the first seat, and so counts a round, exactly when k is the last seat. */
  lemma WrapsAtLastSeat(ps: seq<PlayerState>, k: nat)
    requires 0 < |ps| && k < |ps|
    ensures NextIndex(WithCurrent(ps, k)) == 0 <==> k == |ps| - 1
  {
    RotationAdvances(ps, k);
    WrapIndex(k, |ps|);
  }

  /** One step past seat k of n wraps to 0 exactly from the last seat. */
  lemma WrapIndex(k: nat, n: nat)
    requires k < n
    ensures (k + 1) % n == 0 <==> k == n - 1
  {
    if k == n - 1 {
      assert k + 1 == n;
    } else {
      assert 0 < k + 1 < n;
    }
  }

  // ---------------------------------------------------------------------
  // UNDO_SCORE
  // ---------------------------------------------------------------------

  /** Undo with no dart in the turn returns the state as it is. */
  lemma UndoEmptyTurn(s: GameState)
    requires UndoReadable(s) && |s.currentTurn.scores| == 0
    ensures Undo(s) == Ok(s)
  {
  }

  /**
   * Undo touches only the players and the turn: the statistics, the log,
   * the round, the game-over flag and the winner stay, so a finished match
   * stays finished and the dart stays counted.
   */
  lemma UndoKeepsBookkeeping(s: GameState)
    requires UndoReadable(s)
    ensures Undo(s).Ok? ==>
              var r := Undo(s).value;
              && r == s.(players := r.players, currentTurn := r.currentTurn)
              && r.currentTurn.playerId == s.currentTurn.playerId
              && SameIds(s.players, r.players) && SameFlags(s.players, r.players)
  {
  }

  // ---------------------------------------------------------------------
  // ADJUST_SCORE
  // ---------------------------------------------------------------------

  /** ADJUST_SCORE sets the score of every entry with the id, and changes nothing else. */
  lemma AdjustSetsScore(s: GameState, id: PlayerId, v: int)
    ensures var r := Adjust(s, id, v);
            && SameIds(s.players, r.players) && SameFlags(s.players, r.players)
            && (forall i :: 0 <= i < |s.players| ==>
                  r.players[i] == if s.players[i].id == id then s.players[i].(score := v) else s.players[i])
            && r == s.(players := r.players)
  {
  }

  /** The last adjustment of a player wins. */
  lemma AdjustLastWins(s: GameState, id: PlayerId, v: int, w: int)
    ensures Adjust(Adjust(s, id, v), id, w) == Adjust(s, id, w)
  {
    AdjustSetsScore(s, id, v);
    AdjustSetsScore(Adjust(s, id, v), id, w);
    AdjustSetsScore(s, id, w);
    assert Adjust(Adjust(s, id, v), id, w).players == Adjust(s, id, w).players;
  }

  /** Adjustments of two different players do not interfere. */
  lemma AdjustCommutes(s: GameState, id: PlayerId, v: int, id': PlayerId, w: int)
    requires id != id'
    ensures Adjust(Adjust(s, id, v), id', w) == Adjust(Adjust(s, id', w), id, v)
  {
    AdjustSetsScore(s, id, v);
    AdjustSetsScore(Adjust(s, id, v), id', w);
    AdjustSetsScore(s, id', w);
    AdjustSetsScore(Adjust(s, id', w), id, v);
    assert Adjust(Adjust(s, id, v), id', w).players == Adjust(Adjust(s, id', w), id, v).players;
  }

  /** Adjusting an id that is not seated, or to the score a player already has, changes nothing. */
  lemma AdjustNoOp(s: GameState, id: PlayerId, v: int)
    requires id !in Ids(s.players) || forall i :: 0 <= i < |s.players| && s.players[i].id == id ==> s.players[i].score == v
    ensures Adjust(s, id, v) == s
  {
    AdjustSetsScore(s, id, v);
    var r := Adjust(s, id, v);
    forall i | 0 <= i < |s.players| ensures r.players[i] == s.players[i] {
      if s.players[i].id == id {
        assert s.players[i].id in Ids(s.players);
      }
    }
    assert r.players == s.players;
  }
}
