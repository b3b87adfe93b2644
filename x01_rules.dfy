/**
 * The X01 rules of ADD_SCORE and UNDO_SCORE: the game-over guard, the
 * statistics update, bust, finish, the 3-dart rotation and the plain dart,
 * and the turn-start score that a bust restores and undo preserves.
 */
module X01Rules {
  import opened GameTypes
  import opened GameContext
  import opened Invariants

  /** The thrower's score before the darts of the turn in progress, the score a bust goes back to. */
  function TurnStart(s: GameState): int
    requires TurnReadable(s)
  {
    PlayerById(s.players, s.currentTurn.playerId).score + Sum(s.currentTurn.scores)
  }

  /** The reducer's turn-start score agrees with this one on every turn that counts its scores. */
  lemma TurnStartAgrees(s: GameState)
    requires UndoReadable(s)
    ensures TurnStartScore(s) == TurnStart(s)
  {
    if s.currentTurn.dartsThrown == 0 {
      assert s.currentTurn.scores == [];
    }
  }

  lemma SumSnoc(xs: seq<int>, x: int)
    ensures Sum(xs + [x]) == Sum(xs) + x
  {
    assert (xs + [x])[..|xs|] == xs;
  }

  /** ADD_SCORE sends a dart on an X01 match down the X01 path, and a Cricket dart to the Cricket rules. */
  lemma DartRouted(s: GameState, score: int, base: int)
    requires Dispatchable(s, AddScore(score, base))
    ensures s.gameType == X01 ==> Reduce(s, AddScore(score, base)) == Ok(AddX01(s, score, base))
    ensures s.gameType == Cricket ==> Reduce(s, AddScore(score, base)) == Ok(AddCricket(s, score, base))
  {
  }

  /** A dart on a finished X01 match changes nothing. */
  lemma GameOverIgnoresDart(s: GameState, score: int, base: int)
    requires TurnReadable(s) && s.gameType == X01 && s.gameOver
    ensures AddX01(s, score, base) == s
  {
  }

  /** Whichever branch it takes, an X01 dart past the guard writes the same statistics. */
  lemma X01Stats(s: GameState, score: int, base: int)
    requires TurnReadable(s) && !s.gameOver
    ensures AddX01(s, score, base).playerStats == CountDart(s.playerStats, s.currentTurn.playerId, score, None)
  {
  }

  /**
   * Every dart that passes the guard counts in the thrower's statistics,
   * bust and finish included; X01 never writes `targetsHit`, and no other
   * player's statistics change.
   */
  lemma DartCounted(s: GameState, score: int, base: int)
    requires TurnReadable(s) && s.gameType == X01 && !s.gameOver
    ensures var r := AddX01(s, score, base);
            var tid := s.currentTurn.playerId;
            && r.playerStats.Keys == s.playerStats.Keys
            && r.playerStats[tid] == Stats(s.playerStats[tid].totalScore + score, s.playerStats[tid].dartsThrown + 1, None)
            && forall id :: id in s.playerStats && id != tid ==> r.playerStats[id] == s.playerStats[id]
  {
    X01Stats(s, score, base);
  }

  /**
   * A dart ends the match exactly when it brings the thrower to zero and,
   * under double-out, is a double (base * 2 == score).
   */
  lemma FinishIff(s: GameState, score: int, base: int)
    requires TurnReadable(s) && s.gameType == X01 && !s.gameOver
    ensures AddX01(s, score, base).gameOver <==>
            X01Remaining(s, score) == 0 && (!DoubleOut(s.settings) || base * 2 == score)
  {
  }

  /**
   * A dart passes the turn on exactly when it busts, or when it is the
   * third dart and does not finish.
   */
  lemma RotatesIff(s: GameState, score: int, base: int)
    requires TurnReadable(s) && s.gameType == X01 && !s.gameOver
    ensures AddX01(s, score, base).currentTurn.dartsThrown == 0 <==>
            X01Busts(s, score, base) || (X01Remaining(s, score) != 0 && s.currentTurn.dartsThrown + 1 == 3)
  {
  }

  /**
   * Bust: the thrower goes back to the turn-start score, the turn with the
   * busting dart is logged, the next player is up with an empty turn, and
   * the round, the game-over flag and the winner stay as they were.
   */
  lemma Bust(s: GameState, score: int, base: int)
    requires UndoReadable(s) && s.gameType == X01 && !s.gameOver
    requires X01Busts(s, score, base)
    ensures var r := AddX01(s, score, base);
            var t := s.currentTurn;
            var next := NextIndex(s.players);
            && SameIds(s.players, r.players)
            && (forall i :: 0 <= i < |r.players| ==>
                  && r.players[i].score == (if s.players[i].id == t.playerId then TurnStart(s) else s.players[i].score)
                  && (r.players[i].current <==> i == next))
            && r.currentTurn == CurrentTurn(s.players[next].id, 0, [])
            && r.turns == s.turns + [TurnRecord(t.playerId, t.scores + [score])]
            && r.currentRound == s.currentRound && !r.gameOver && r.winnerId == s.winnerId
            && r == s.(players := r.players, currentTurn := r.currentTurn, turns := r.turns, playerStats := r.playerStats, gameOver := r.gameOver, winnerId := r.winnerId)
  {
    X01BustShape(s, score, base);
    TurnStartAgrees(s);
  }

  /**
   * Finish: decided before the 3-dart rotation, it ends the match with the
   * thrower as the winner at zero, no one flagged, and the turn both kept
   * and logged.
   */
  lemma Finish(s: GameState, score: int, base: int)
    requires TurnReadable(s) && DistinctIds(s.players) && s.gameType == X01 && !s.gameOver
    requires !X01Busts(s, score, base) && X01Remaining(s, score) == 0
    ensures var r := AddX01(s, score, base);
            var t := s.currentTurn;
            && SameIds(s.players, r.players)
            && (forall i :: 0 <= i < |r.players| ==>
                  && r.players[i].score == (if s.players[i].id == t.playerId then 0 else s.players[i].score)
                  && !r.players[i].current)
            && r.gameOver && r.winnerId == Some(t.playerId)
            && r.currentTurn == CurrentTurn(t.playerId, t.dartsThrown + 1, t.scores + [score])
            && r.turns == s.turns + [TurnRecord(t.playerId, t.scores + [score])]
            && r.currentRound == s.currentRound
            && r == s.(players := r.players, currentTurn := r.currentTurn, turns := r.turns, playerStats := r.playerStats, gameOver := r.gameOver, winnerId := r.winnerId)
  {
  }

  /**
   * The third dart that neither busts nor finishes: the score is taken, the
   * turn is logged and the next player is up; X01 never counts rounds.
   */
  lemma Rotate(s: GameState, score: int, base: int)
    requires TurnReadable(s) && DistinctIds(s.players) && s.gameType == X01 && !s.gameOver
    requires !X01Busts(s, score, base) && X01Remaining(s, score) != 0 && s.currentTurn.dartsThrown + 1 == 3
    ensures var r := AddX01(s, score, base);
            var t := s.currentTurn;
            var next := NextIndex(s.players);
            && SameIds(s.players, r.players)
            && (forall i :: 0 <= i < |r.players| ==>
                  && r.players[i].score == (if s.players[i].id == t.playerId then s.players[i].score - score else s.players[i].score)
                  && (r.players[i].current <==> i == next))
            && r.currentTurn == CurrentTurn(s.players[next].id, 0, [])
            && r.turns == s.turns + [TurnRecord(t.playerId, t.scores + [score])]
            && r.currentRound == s.currentRound && r.gameOver == s.gameOver && r.winnerId == s.winnerId
            && r == s.(players := r.players, currentTurn := r.currentTurn, turns := r.turns, playerStats := r.playerStats, gameOver := r.gameOver, winnerId := r.winnerId)
  {
    var i0 := IndexOfId(s.players, s.currentTurn.playerId);
    PlayerByIdAt(s.players, s.currentTurn.playerId, i0);
  }

  /** A plain dart: the score is taken and the turn goes on, with nothing logged. */
  lemma PlainDart(s: GameState, score: int, base: int)
    requires TurnReadable(s) && DistinctIds(s.players) && s.gameType == X01 && !s.gameOver
    requires !X01Busts(s, score, base) && X01Remaining(s, score) != 0 && s.currentTurn.dartsThrown + 1 != 3
    ensures var r := AddX01(s, score, base);
            var t := s.currentTurn;
            && SameIds(s.players, r.players) && SameFlags(s.players, r.players)
            && (forall i :: 0 <= i < |r.players| ==>
                  r.players[i].score == (if s.players[i].id == t.playerId then s.players[i].score - score else s.players[i].score))
            && r.currentTurn == CurrentTurn(t.playerId, t.dartsThrown + 1, t.scores + [score])
            && r.turns == s.turns && r.currentRound == s.currentRound && r.gameOver == s.gameOver && r.winnerId == s.winnerId
            && r == s.(players := r.players, currentTurn := r.currentTurn, turns := r.turns, playerStats := r.playerStats, gameOver := r.gameOver, winnerId := r.winnerId)
  {
    var i0 := IndexOfId(s.players, s.currentTurn.playerId);
    PlayerByIdAt(s.players, s.currentTurn.playerId, i0);
  }

  /** Under double-out at 50, the 50 button busts while a double 25 finishes. */
  lemma DoubleOutBull(s: GameState)
    requires TurnReadable(s) && s.gameType == X01 && !s.gameOver && DoubleOut(s.settings)
    requires PlayerById(s.players, s.currentTurn.playerId).score == 50
    ensures X01Busts(s, 50, 50) && !AddX01(s, 50, 50).gameOver
    ensures !X01Busts(s, 50, 25) && AddX01(s, 50, 25).gameOver && AddX01(s, 50, 25).winnerId == Some(s.currentTurn.playerId)
  {
    FinishIff(s, 50, 50);
    FinishIff(s, 50, 25);
  }

  /** A plain dart keeps the turn-start score. */
  lemma PlainDartKeepsTurnStart(s: GameState, score: int, base: int)
    requires TurnReadable(s) && DistinctIds(s.players) && s.gameType == X01 && !s.gameOver
    requires !X01Busts(s, score, base) && X01Remaining(s, score) != 0 && s.currentTurn.dartsThrown + 1 != 3
    ensures TurnReadable(AddX01(s, score, base)) && TurnStart(AddX01(s, score, base)) == TurnStart(s)
  {
    var r := AddX01(s, score, base);
    var t := s.currentTurn;
    var i0 := IndexOfId(s.players, t.playerId);
    PlayerByIdAt(s.players, t.playerId, i0);
    PlainDart(s, score, base);
    X01Stats(s, score, base);
    SameIdsDistinct(s.players, r.players);
    PlayerByIdAt(r.players, t.playerId, i0);
    SumSnoc(t.scores, score);
  }

  /** X01 undo: the last dart's score goes back to the thrower and the dart leaves the turn; nothing else changes. */
  lemma Undo01(s: GameState)
    requires UndoReadable(s) && s.gameType == X01 && |s.currentTurn.scores| > 0
    ensures Undo(s).Ok?
    ensures var r := Undo(s).value;
            var t := s.currentTurn;
            var last := t.scores[|t.scores| - 1];
            && SameIds(s.players, r.players) && SameFlags(s.players, r.players)
            && (forall i :: 0 <= i < |r.players| ==>
                  r.players[i].score == (if s.players[i].id == t.playerId then s.players[i].score + last else s.players[i].score))
            && r.currentTurn == CurrentTurn(t.playerId, t.dartsThrown - 1, t.scores[..|t.scores| - 1])
            && r == s.(players := r.players, currentTurn := r.currentTurn)
  {
  }

  /** X01 undo keeps the turn-start score. */
  lemma UndoKeepsTurnStart(s: GameState)
    requires UndoReadable(s) && DistinctIds(s.players) && s.gameType == X01 && |s.currentTurn.scores| > 0
    ensures Undo(s).Ok? && TurnReadable(Undo(s).value)
    ensures TurnStart(Undo(s).value) == TurnStart(s)
  {
    var r := Undo(s).value;
    var t := s.currentTurn;
    var i0 := IndexOfId(s.players, t.playerId);
    PlayerByIdAt(s.players, t.playerId, i0);
    Undo01(s);
    SameIdsDistinct(s.players, r.players);
    PlayerByIdAt(r.players, t.playerId, i0);
    var xs := t.scores[..|t.scores| - 1];
    assert t.scores == xs + [t.scores[|t.scores| - 1]];
    SumSnoc(xs, t.scores[|t.scores| - 1]);
  }

  /** Undoing a plain dart gives back the state before it, statistics apart. */
  lemma UndoRevertsPlainDart(s: GameState, score: int, base: int)
    requires UndoReadable(s) && DistinctIds(s.players) && s.gameType == X01 && !s.gameOver
    requires !X01Busts(s, score, base) && X01Remaining(s, score) != 0 && s.currentTurn.dartsThrown + 1 != 3
    ensures UndoReadable(AddX01(s, score, base))
    ensures Undo(AddX01(s, score, base)) == Ok(s.(playerStats := AddX01(s, score, base).playerStats))
  {
    var r := AddX01(s, score, base);
    var t := s.currentTurn;
    PlainDart(s, score, base);
    X01Stats(s, score, base);
    SameIdsKeepIds(s.players, r.players);
    Undo01(r);
    var u := Undo(r).value;
    assert (t.scores + [score])[..|t.scores|] == t.scores;
    assert u.currentTurn == t;
    var i0 := IndexOfId(s.players, t.playerId);
    PlayerByIdAt(s.players, t.playerId, i0);
    assert u.players == s.players;
  }
}
