/**
 * The Cricket rules of ADD_SCORE and UNDO_SCORE: marks and their cap,
 * overflow points for the opponents, the `targetsHit` statistic, the win
 * test, the 3-dart rotation with its round limit, and the undo decoder
 * with the darts it cannot read back.
 */
module CricketRules {
  import opened GameTypes
  import opened GameContext
  import opened Invariants

  /** Two bases name the same key only when they are equal or both bulls: no number marks another's key. */
  lemma KeysDistinct(a: int, b: int)
    requires AddKey(a).Some? && AddKey(a) == AddKey(b)
    ensures a == b || ((a == 25 || a == 50) && (b == 25 || b == 50))
  {
  }

  /** Every scoring button names one of the seven keys; only the miss names none. */
  lemma KeyOfThrow(score: int, base: int)
    requires ValidThrow(Cricket, score, base)
    ensures AddKey(base).Some? <==> base != 0
  {
  }

  /**
   * The marks a dart adds are its multiplier, except that the 50 button
   * adds 2; they are between 1 and 3, and `targetsHit` grows by the same
   * amount.
   */
  lemma MarksOfThrow(score: int, base: int)
    requires ValidThrow(Cricket, score, base) && base != 0
    ensures Divisible(score, base)
    ensures 1 <= MarksToAdd(score, base) <= 3
    ensures base != 50 ==> score == base * MarksToAdd(score, base)
    ensures base == 50 ==> score == 50 && MarksToAdd(score, base) == 2
    ensures TargetsHitOf(score, base) == MarksToAdd(score, base)
  {
  }

  /** Whichever branch it takes, a Cricket dart writes the same statistics. */
  lemma CricketStats(s: GameState, score: int, base: int)
    requires CricketReadable(s) && s.gameType == Cricket && ValidThrow(Cricket, score, base)
    ensures AddCricket(s, score, base).playerStats == CricketCount(s, score, base)
  {
  }

  /**
   * Every Cricket dart counts in the thrower's statistics, on a finished
   * match too (Cricket has no game-over guard); `targetsHit` grows by the
   * marks the dart adds, overflow included, and a miss adds none.
   */
  lemma DartCounted(s: GameState, score: int, base: int)
    requires CricketReadable(s) && s.gameType == Cricket && ValidThrow(Cricket, score, base)
    ensures var r := AddCricket(s, score, base);
            var tid := s.currentTurn.playerId;
            var was := s.playerStats[tid];
            && r.playerStats.Keys == s.playerStats.Keys
            && r.playerStats[tid] == Stats(was.totalScore + score, was.dartsThrown + 1,
                                           Some(was.targetsHit.GetOr(0) + (if base == 0 then 0 else MarksToAdd(score, base))))
            && forall id :: id in s.playerStats && id != tid ==> r.playerStats[id] == s.playerStats[id]
  {
    CricketStats(s, score, base);
    if base != 0 {
      MarksOfThrow(score, base);
    }
  }

  /** A miss changes no player. */
  lemma MissScoresNothing(s: GameState)
    requires CricketReadable(s) && s.gameType == Cricket
    ensures CricketScored(s, 0, 0) == s.players
  {
  }

  /** The thrower's seat after a dart on `key`: its marks grow, capped at 3, and its score stays. */
  lemma ScoreTargetThrower(ps: seq<PlayerState>, tid: PlayerId, key: Target, score: int, base: int, j: nat)
    requires tid in Ids(ps) && PlayerById(ps, tid).CricketPlayer? && Divisible(score, base)
    requires j < |ps| && ps[j].id == tid && ps[j].CricketPlayer?
    ensures var m := MarksToAdd(score, base);
            var b := ps[j].cricketScores;
            ScoreTarget(ps, tid, key, score, base)[j] ==
              ps[j].(cricketScores := b[key := Mark(Min(b[key].marks + m, 3), b[key].marks + m >= 3)])
  {
  }

  /** An opponent's seat after a dart on `key`: its board stays, and it gains base times the overflow unless it closed the key. */
  lemma ScoreTargetOpponent(ps: seq<PlayerState>, tid: PlayerId, key: Target, score: int, base: int, j: nat)
    requires tid in Ids(ps) && PlayerById(ps, tid).CricketPlayer? && Divisible(score, base)
    requires j < |ps| && ps[j].id != tid && ps[j].CricketPlayer? && 1 <= MarksToAdd(score, base)
    ensures var overflow := Max(0, PlayerById(ps, tid).cricketScores[key].marks + MarksToAdd(score, base) - 3);
            ScoreTarget(ps, tid, key, score, base)[j] ==
              if ps[j].cricketScores[key].closed then ps[j] else ps[j].(score := ps[j].score + base * overflow)
  {
  }

  /**
   * The thrower's marks on the key become min(old + m, 3), the key is
   * closed when old + m reaches 3, the other keys and the thrower's score
   * stay as they were.
   */
  lemma ThrowerMarks(s: GameState, score: int, base: int)
    requires CricketReadable(s) && s.gameType == Cricket && ValidThrow(Cricket, score, base) && base != 0
    ensures var i0 := IndexOfId(s.players, s.currentTurn.playerId);
            var key := AddKey(base).value;
            var b := s.players[i0].cricketScores;
            var m := MarksToAdd(score, base);
            var u := CricketScored(s, score, base);
            && u[i0].CricketPlayer?
            && u[i0].cricketScores == b[key := Mark(Min(b[key].marks + m, 3), b[key].marks + m >= 3)]
            && u[i0].score == s.players[i0].score
  {
    MarksOfThrow(score, base);
    ScoreTargetThrower(s.players, s.currentTurn.playerId, AddKey(base).value, score, base, IndexOfId(s.players, s.currentTurn.playerId));
  }

  /**
   * Each opponent keeps its board and, unless it has closed the key, gains
   * base * max(0, old + m - 3) points, where old is the thrower's marks on
   * the key before the dart.
   */
  lemma OpponentPoints(s: GameState, score: int, base: int)
    requires CricketReadable(s) && AllCricket(s.players) && s.gameType == Cricket && ValidThrow(Cricket, score, base) && base != 0
    ensures var tid := s.currentTurn.playerId;
            var key := AddKey(base).value;
            var overflow := Max(0, PlayerById(s.players, tid).cricketScores[key].marks + MarksToAdd(score, base) - 3);
            var u := CricketScored(s, score, base);
            forall j :: 0 <= j < |u| && s.players[j].id != tid ==>
              && u[j].cricketScores == s.players[j].cricketScores
              && u[j].score == s.players[j].score + (if s.players[j].cricketScores[key].closed then 0 else base * overflow)
  {
    MarksOfThrow(score, base);
    var tid := s.currentTurn.playerId;
    var key := AddKey(base).value;
    var overflow := Max(0, PlayerById(s.players, tid).cricketScores[key].marks + MarksToAdd(score, base) - 3);
    var u := ScoreTarget(s.players, tid, key, score, base);
    assert CricketScored(s, score, base) == u;
    forall j | 0 <= j < |u| && s.players[j].id != tid
      ensures u[j].cricketScores == s.players[j].cricketScores
      ensures u[j].score == s.players[j].score + (if s.players[j].cricketScores[key].closed then 0 else base * overflow)
    {
      ScoreTargetOpponent(s.players, tid, key, score, base, j);
    }
  }

  /** When every opponent has closed the key, no score changes. */
  lemma ClosedByOthersNoPoints(s: GameState, score: int, base: int)
    requires CricketReadable(s) && AllCricket(s.players) && s.gameType == Cricket && ValidThrow(Cricket, score, base) && base != 0
    requires IsNumberClosedByOthers(AddKey(base).value, s.players, s.currentTurn.playerId)
    ensures var u := CricketScored(s, score, base);
            forall j :: 0 <= j < |u| ==> u[j].score == s.players[j].score
  {
    ThrowerMarks(s, score, base);
    OpponentPoints(s, score, base);
    var tid := s.currentTurn.playerId;
    var u := CricketScored(s, score, base);
    forall j | 0 <= j < |u| ensures u[j].score == s.players[j].score {
      if s.players[j].id == tid {
        assert u[j] == MarkTarget(s.players, tid, AddKey(base).value, MarksToAdd(score, base))[j];
      }
    }
  }

  /**
   * With the bull already closed, the 50 button gives an open opponent 100
   * points and a double 25 gives it 50: the same two overflow marks,
   * scored at different bases.
   */
  lemma BullOverflowByButton(s: GameState, j: nat)
    requires CricketReadable(s) && AllCricket(s.players) && s.gameType == Cricket
    requires PlayerById(s.players, s.currentTurn.playerId).cricketScores[Bull].marks == 3
    requires j < |s.players| && s.players[j].id != s.currentTurn.playerId && !s.players[j].cricketScores[Bull].closed
    ensures CricketScored(s, 50, 50)[j].score == s.players[j].score + 100
    ensures CricketScored(s, 50, 25)[j].score == s.players[j].score + 50
  {
    OpponentPoints(s, 50, 50);
    OpponentPoints(s, 50, 25);
  }

  /** The reducer's players after a Cricket dart score and mark as `CricketScored` says; only the turn flags differ. */
  lemma DartScoring(s: GameState, score: int, base: int)
    requires CricketReadable(s) && s.gameType == Cricket && ValidThrow(Cricket, score, base)
    ensures var r := AddCricket(s, score, base);
            var u := CricketScored(s, score, base);
            && SameIds(s.players, r.players) && |u| == |r.players|
            && forall i :: 0 <= i < |u| ==> r.players[i] == u[i].(current := r.players[i].current)
  {
  }

  /**
   * Win: decided before the 3-dart rotation, it ends the match with the
   * thrower as the winner, no one flagged and the turn both kept and logged.
   */
  lemma Win(s: GameState, score: int, base: int)
    requires CricketReadable(s) && s.gameType == Cricket && ValidThrow(Cricket, score, base)
    requires CricketWins(s, score, base)
    ensures var r := AddCricket(s, score, base);
            var t := s.currentTurn;
            && r.gameOver && r.winnerId == Some(t.playerId)
            && (forall i :: 0 <= i < |r.players| ==> !r.players[i].current)
            && r.currentTurn == CurrentTurn(t.playerId, t.dartsThrown + 1, t.scores + [score])
            && r.turns == s.turns + [TurnRecord(t.playerId, t.scores + [score])]
            && r.currentRound == s.currentRound
            && r == s.(players := r.players, currentTurn := r.currentTurn, turns := r.turns, playerStats := r.playerStats, gameOver := r.gameOver, winnerId := r.winnerId, currentRound := r.currentRound)
  {
  }

  /** The win test: after the dart the thrower has closed all seven keys and no one has a lower score. */
  lemma WinIff(s: GameState, score: int, base: int)
    requires CricketReadable(s) && DistinctIds(s.players) && s.gameType == Cricket && ValidThrow(Cricket, score, base)
    ensures var u := CricketScored(s, score, base);
            var i0 := IndexOfId(s.players, s.currentTurn.playerId);
            CricketWins(s, score, base) <==>
              && (forall t: Target :: u[i0].cricketScores[t].closed)
              && (forall j :: 0 <= j < |u| ==> u[j].score >= u[i0].score)
  {
    var tid := s.currentTurn.playerId;
    var u := CricketScored(s, score, base);
    var i0 := IndexOfId(s.players, tid);
    if base != 0 {
      ThrowerMarks(s, score, base);
    }
    SameIdsDistinct(s.players, u);
    PlayerByIdAt(u, tid, i0);
  }

  /**
   * The third dart without a win: the round goes up exactly when play
   * wraps to the first player, the match ends exactly when that passes the
   * round limit (with no winner), the next player is up unless it ended,
   * and the turn is logged.
   */
  lemma Rotate(s: GameState, score: int, base: int)
    requires CricketReadable(s) && s.gameType == Cricket && ValidThrow(Cricket, score, base)
    requires !CricketWins(s, score, base) && s.currentTurn.dartsThrown + 1 == 3
    ensures var r := AddCricket(s, score, base);
            var t := s.currentTurn;
            var next := NextIndex(s.players);
            && r.currentRound == (if next == 0 then s.currentRound + 1 else s.currentRound)
            && (r.gameOver <==> RoundLimitPassed(s.settings, r.currentRound))
            && (forall i :: 0 <= i < |r.players| ==> (r.players[i].current <==> !r.gameOver && i == next))
            && r.currentTurn == CurrentTurn(s.players[next].id, 0, [])
            && r.turns == s.turns + [TurnRecord(t.playerId, t.scores + [score])]
            && r.winnerId == s.winnerId
            && r == s.(players := r.players, currentTurn := r.currentTurn, turns := r.turns, playerStats := r.playerStats, gameOver := r.gameOver, winnerId := r.winnerId, currentRound := r.currentRound)
  {
  }

  /** Without a round limit the 3-dart rotation never ends the match. */
  lemma NoLimitNeverEnds(s: GameState, score: int, base: int)
    requires CricketReadable(s) && s.gameType == Cricket && ValidThrow(Cricket, score, base)
    requires !CricketWins(s, score, base) && s.currentTurn.dartsThrown + 1 == 3
    requires Rounds(s.settings) == None
    ensures !AddCricket(s, score, base).gameOver
  {
    Rotate(s, score, base);
  }

  /** A dart that neither wins nor ends the turn extends the turn; flags, log, round and game-over flag stay. */
  lemma PlainDart(s: GameState, score: int, base: int)
    requires CricketReadable(s) && s.gameType == Cricket && ValidThrow(Cricket, score, base)
    requires !CricketWins(s, score, base) && s.currentTurn.dartsThrown + 1 != 3
    ensures var r := AddCricket(s, score, base);
            var t := s.currentTurn;
            && r.players == CricketScored(s, score, base) && SameFlags(s.players, r.players)
            && r.currentTurn == CurrentTurn(t.playerId, t.dartsThrown + 1, t.scores + [score])
            && r.turns == s.turns && r.currentRound == s.currentRound
            && r.gameOver == s.gameOver && r.winnerId == s.winnerId
            && r == s.(players := r.players, currentTurn := r.currentTurn, turns := r.turns, playerStats := r.playerStats, gameOver := r.gameOver, winnerId := r.winnerId, currentRound := r.currentRound)
  {
  }

  /** Before the third dart the turn stays with its owner and gains the dart, win or not; what undo reads stays readable. */
  lemma TurnGoesOn(s: GameState, score: int, base: int)
    requires CricketReadable(s) && DistinctIds(s.players) && s.gameType == Cricket && ValidThrow(Cricket, score, base)
    requires s.currentTurn.dartsThrown + 1 != 3
    ensures var r := AddCricket(s, score, base);
            var t := s.currentTurn;
            && r.currentTurn == CurrentTurn(t.playerId, t.dartsThrown + 1, t.scores + [score])
            && r.gameType == Cricket && DistinctIds(r.players) && CricketReadable(r)
            && (UndoReadable(s) ==> UndoReadable(r))
  {
    var r := AddCricket(s, score, base);
    var tid := s.currentTurn.playerId;
    var i0 := IndexOfId(s.players, tid);
    if CricketWins(s, score, base) {
      Win(s, score, base);
    } else {
      PlainDart(s, score, base);
    }
    CricketStats(s, score, base);
    DartScoring(s, score, base);
    SameIdsDistinct(s.players, r.players);
    PlayerByIdAt(r.players, tid, i0);
    if base != 0 {
      ThrowerMarks(s, score, base);
    }
  }

  // ---------------------------------------------------------------------
  // Undo
  // ---------------------------------------------------------------------

  /**
   * The undo decoder reads back every Cricket dart except a miss and the
   * trebles of 15 and 16: the key scored, the marks the dart added, and
   * the bull's base 25 for the 50 button.
   */
  lemma DecodeThrow(score: int, base: int)
    requires ValidThrow(Cricket, score, base)
    ensures UndoDecode(score).None? <==> score == 0 || score == 45 || score == 48
    ensures UndoDecode(score).Some? ==>
              base != 0 &&
              UndoDecode(score) == Some(Decoded(AddKey(base).value, MarksToAdd(score, base), if base == 50 then 25 else base))
  {
    if base == 15 {
      assert score == 15 || score == 30 || score == 45;
    } else if base == 16 {
      assert score == 16 || score == 32 || score == 48;
    } else if base == 17 {
      assert score == 17 || score == 34 || score == 51;
    } else if base == 18 {
      assert score == 18 || score == 36 || score == 54;
    } else if base == 19 {
      assert score == 19 || score == 38 || score == 57;
    } else if base == 20 {
      assert score == 20 || score == 40 || score == 60;
    } else if base == 25 {
      assert score == 25 || score == 50 || score == 75;
    }
  }

  /** A scoring dart other than the trebles of 15 and 16 decodes to its own key and marks. */
  lemma ReadsBack(score: int, base: int)
    requires ValidThrow(Cricket, score, base) && base != 0 && score != 45 && score != 48
    ensures UndoDecode(score).Some?
    ensures UndoDecode(score).value.key == AddKey(base).value
    ensures UndoDecode(score).value.marksHit == MarksToAdd(score, base)
  {
    MarksOfThrow(score, base);
    DecodeThrow(score, base);
  }

  /** Undoing a miss or a treble 15 or 16 fails: the decoded key is not on the board. */
  lemma UndoFails(s: GameState)
    requires UndoReadable(s) && s.gameType == Cricket && |s.currentTurn.scores| > 0
    requires var last := s.currentTurn.scores[|s.currentTurn.scores| - 1];
             last == 0 || last == 45 || last == 48
    ensures Undo(s) == Err(MissingTarget(s.currentTurn.scores[|s.currentTurn.scores| - 1]))
  {
    var last := s.currentTurn.scores[|s.currentTurn.scores| - 1];
    assert UndoDecode(last) == None by {
      if last == 0 {
      } else if last == 45 {
        assert CeilDiv25(45) == 2;
      } else {
        assert CeilDiv25(48) == 2;
      }
    }
  }

  /**
   * Cricket undo of a decodable dart: the thrower's marks on the key drop by
   * the decoded marks with no floor, the key is closed at 3 or more, no
   * other player changes (opponents keep any overflow points) and the dart
   * leaves the turn.
   */
  lemma UndoDart(s: GameState)
    requires UndoReadable(s) && s.gameType == Cricket && |s.currentTurn.scores| > 0
    requires UndoDecode(s.currentTurn.scores[|s.currentTurn.scores| - 1]).Some?
    ensures Undo(s).Ok?
    ensures var r := Undo(s).value;
            var t := s.currentTurn;
            var d := UndoDecode(t.scores[|t.scores| - 1]).value;
            var i0 := IndexOfId(s.players, t.playerId);
            var b := s.players[i0].cricketScores;
            var newMarks := b[d.key].marks - d.marksHit;
            && SameIds(s.players, r.players) && SameFlags(s.players, r.players)
            && r.players[i0] == s.players[i0].(cricketScores := b[d.key := Mark(newMarks, newMarks >= 3)])
            && (forall j :: 0 <= j < |r.players| && s.players[j].id != t.playerId ==> r.players[j] == s.players[j])
            && r == s.(players := r.players, currentTurn := CurrentTurn(t.playerId, t.dartsThrown - 1, t.scores[..|t.scores| - 1]))
  {
  }

  /**
   * Undoing a dart that neither won, ended the turn nor overflowed, and
   * that the decoder can read, gives back the state before it, statistics
   * apart.
   */
  lemma UndoRevertsPlainDart(s: GameState, score: int, base: int)
    requires UndoReadable(s) && DistinctIds(s.players) && s.gameType == Cricket && ValidThrow(Cricket, score, base)
    requires BoardOk(PlayerById(s.players, s.currentTurn.playerId).cricketScores)
    requires !CricketWins(s, score, base) && s.currentTurn.dartsThrown + 1 != 3
    requires base != 0 && score != 45 && score != 48
    requires PlayerById(s.players, s.currentTurn.playerId).cricketScores[AddKey(base).value].marks + MarksToAdd(score, base) <= 3
    ensures UndoReadable(AddCricket(s, score, base))
    ensures Undo(AddCricket(s, score, base)) == Ok(s.(playerStats := AddCricket(s, score, base).playerStats))
  {
    var r := AddCricket(s, score, base);
    var t := s.currentTurn;
    TurnGoesOn(s, score, base);
    PlainDart(s, score, base);
    RevertedPlayers(s, score, base);
    var v := Undo(r).value;
    assert (t.scores + [score])[..|t.scores|] == t.scores;
    assert v.currentTurn == t;
  }

  /** The players part of `UndoRevertsPlainDart`: the undo takes the thrower's marks back and touches no one else. */
  lemma RevertedPlayers(s: GameState, score: int, base: int)
    requires UndoReadable(s) && DistinctIds(s.players) && s.gameType == Cricket && ValidThrow(Cricket, score, base)
    requires BoardOk(PlayerById(s.players, s.currentTurn.playerId).cricketScores)
    requires !CricketWins(s, score, base) && s.currentTurn.dartsThrown + 1 != 3
    requires base != 0 && score != 45 && score != 48
    requires PlayerById(s.players, s.currentTurn.playerId).cricketScores[AddKey(base).value].marks + MarksToAdd(score, base) <= 3
    ensures UndoReadable(AddCricket(s, score, base))
    ensures Undo(AddCricket(s, score, base)).Ok? && Undo(AddCricket(s, score, base)).value.players == s.players
  {
    var tid := s.currentTurn.playerId;
    var i0 := IndexOfId(s.players, tid);
    NoOverflowDart(s, score, base);
    ReadsBack(score, base);
    assert PlayerById(s.players, tid) == s.players[i0];
    UndoTakesBack(s.players, AddCricket(s, score, base), i0, AddKey(base).value, MarksToAdd(score, base));
  }

  /**
   * Undo of a dart that added m marks on `key` to player i0 of `ps` and
   * changed nobody else gives `ps` back, provided the board was consistent.
   */
  lemma UndoTakesBack(ps: seq<PlayerState>, r: GameState, i0: nat, key: Target, m: int)
    requires UndoReadable(r) && r.gameType == Cricket && DistinctIds(ps)
    requires |r.currentTurn.scores| > 0
    requires var d := UndoDecode(r.currentTurn.scores[|r.currentTurn.scores| - 1]);
             d.Some? && d.value.key == key && d.value.marksHit == m
    requires |r.players| == |ps| && i0 < |ps| && ps[i0].id == r.currentTurn.playerId
    requires IndexOfId(r.players, r.currentTurn.playerId) == i0
    requires ps[i0].CricketPlayer? && BoardOk(ps[i0].cricketScores)
    requires var b := ps[i0].cricketScores;
             r.players[i0] == ps[i0].(cricketScores := b[key := Mark(b[key].marks + m, b[key].marks + m >= 3)])
    requires forall j :: 0 <= j < |ps| && ps[j].id != r.currentTurn.playerId ==> r.players[j] == ps[j]
    ensures Undo(r).Ok? && Undo(r).value.players == ps
  {
    UndoDart(r);
    var v := Undo(r).value;
    MarkUnmark(ps[i0].cricketScores, key, m);
    assert v.players[i0] == ps[i0];
    forall j | 0 <= j < |ps| ensures v.players[j] == ps[j] {
      if j != i0 {
        assert ps[j].id != r.currentTurn.playerId;
      }
    }
  }

  /** Taking back the marks just added restores a consistent board. */
  lemma MarkUnmark(b: Board, key: Target, m: int)
    requires BoardOk(b)
    ensures var u := b[key := Mark(b[key].marks + m, b[key].marks + m >= 3)];
            u[key := Mark(u[key].marks - m, u[key].marks - m >= 3)] == b
  {
    var u := b[key := Mark(b[key].marks + m, b[key].marks + m >= 3)];
    assert u[key := Mark(u[key].marks - m, u[key].marks - m >= 3)][key] == b[key];
  }

  /** A dart that neither wins, ends the turn nor overflows adds its marks to the thrower and leaves everyone else alone. */
  lemma NoOverflowDart(s: GameState, score: int, base: int)
    requires UndoReadable(s) && DistinctIds(s.players) && s.gameType == Cricket && ValidThrow(Cricket, score, base)
    requires !CricketWins(s, score, base) && s.currentTurn.dartsThrown + 1 != 3
    requires base != 0
    requires PlayerById(s.players, s.currentTurn.playerId).cricketScores[AddKey(base).value].marks + MarksToAdd(score, base) <= 3
    ensures var r := AddCricket(s, score, base);
            var tid := s.currentTurn.playerId;
            var i0 := IndexOfId(s.players, tid);
            var key := AddKey(base).value;
            var b := s.players[i0].cricketScores;
            var m := MarksToAdd(score, base);
            && UndoReadable(r) && r.gameType == Cricket && r.currentTurn.playerId == tid
            && |r.currentTurn.scores| > 0 && r.currentTurn.scores[|r.currentTurn.scores| - 1] == score
            && |r.players| == |s.players| && IndexOfId(r.players, tid) == i0
            && r.players[i0] == s.players[i0].(cricketScores := b[key := Mark(b[key].marks + m, b[key].marks + m >= 3)])
            && forall j :: 0 <= j < |s.players| && s.players[j].id != tid ==> r.players[j] == s.players[j]
  {
    var r := AddCricket(s, score, base);
    var tid := s.currentTurn.playerId;
    var i0 := IndexOfId(s.players, tid);
    TurnGoesOn(s, score, base);
    PlainDart(s, score, base);
    ThrowerMarks(s, score, base);
    PlayerByIdAt(r.players, tid, i0);
    forall j | 0 <= j < |s.players| && s.players[j].id != tid ensures r.players[j] == s.players[j] {
      OpponentPointsUnmoved(s, score, base, j);
    }
  }

  /** A dart that does not overflow leaves every opponent as it was. */
  lemma OpponentPointsUnmoved(s: GameState, score: int, base: int, j: nat)
    requires CricketReadable(s) && DistinctIds(s.players) && s.gameType == Cricket && ValidThrow(Cricket, score, base)
    requires base != 0
    requires PlayerById(s.players, s.currentTurn.playerId).cricketScores[AddKey(base).value].marks + MarksToAdd(score, base) <= 3
    requires j < |s.players| && s.players[j].id != s.currentTurn.playerId
    ensures CricketScored(s, score, base)[j] == s.players[j]
  {
    MarksOfThrow(score, base);
  }

  /** A treble 20 before the third dart: the thrower's marks on 20 go to min(old + 3, 3), and the turn gains the 60. */
  lemma TrebleTwenty(s: GameState)
    requires UndoReadable(s) && DistinctIds(s.players) && s.gameType == Cricket && s.currentTurn.dartsThrown + 1 != 3
    ensures var r := AddCricket(s, 60, 20);
            && UndoReadable(r) && DistinctIds(r.players) && r.gameType == Cricket
            && r.currentTurn.playerId == s.currentTurn.playerId
            && r.currentTurn.scores == s.currentTurn.scores + [60]
            && var before := PlayerById(s.players, s.currentTurn.playerId).cricketScores[T20].marks;
               PlayerById(r.players, r.currentTurn.playerId).cricketScores[T20].marks == Min(before + 3, 3)
  {
    var tid := s.currentTurn.playerId;
    var i0 := IndexOfId(s.players, tid);
    TurnGoesOn(s, 60, 20);
    ThrowerMarks(s, 60, 20);
    DartScoring(s, 60, 20);
    PlayerByIdAt(AddCricket(s, 60, 20).players, tid, i0);
  }

  /** Undoing a treble 20 takes three marks off 20, whatever the cap kept. */
  lemma UndoTrebleTwenty(s: GameState)
    requires UndoReadable(s) && DistinctIds(s.players) && s.gameType == Cricket
    requires |s.currentTurn.scores| > 0 && s.currentTurn.scores[|s.currentTurn.scores| - 1] == 60
    ensures Undo(s).Ok?
    ensures var r := Undo(s).value;
            && UndoReadable(r) && DistinctIds(r.players) && r.gameType == Cricket
            && r.currentTurn.playerId == s.currentTurn.playerId
            && r.currentTurn.scores == s.currentTurn.scores[..|s.currentTurn.scores| - 1]
            && var before := PlayerById(s.players, s.currentTurn.playerId).cricketScores[T20].marks;
               PlayerById(r.players, r.currentTurn.playerId).cricketScores[T20].marks == before - 3
  {
    var tid := s.currentTurn.playerId;
    var i0 := IndexOfId(s.players, tid);
    DecodeThrow(60, 20);
    UndoDart(s);
    var r := Undo(s).value;
    SameIdsDistinct(s.players, r.players);
    PlayerByIdAt(r.players, tid, i0);
  }

  /** Two treble 20s from no marks on 20 leave three marks: the cap throws the second dart's marks away. */
  lemma TwoTrebles(s: GameState)
    requires UndoReadable(s) && DistinctIds(s.players) && s.gameType == Cricket && |s.currentTurn.scores| == 0
    requires PlayerById(s.players, s.currentTurn.playerId).cricketScores[T20].marks == 0
    ensures UndoReadable(AddCricket(s, 60, 20)) && AddCricket(s, 60, 20).gameType == Cricket
    ensures var r := AddCricket(AddCricket(s, 60, 20), 60, 20);
            && UndoReadable(r) && DistinctIds(r.players) && r.gameType == Cricket
            && r.currentTurn.playerId == s.currentTurn.playerId && r.currentTurn.scores == [60, 60]
            && PlayerById(r.players, r.currentTurn.playerId).cricketScores[T20].marks == 3
  {
    TrebleTwenty(s);
    var s1 := AddCricket(s, 60, 20);
    assert s1.currentTurn.scores == [60];
    TrebleTwenty(s1);
  }

  /** Two undos of treble 20s from three marks on 20 reach minus three. */
  lemma TwoUndos(s: GameState)
    requires UndoReadable(s) && DistinctIds(s.players) && s.gameType == Cricket && s.currentTurn.scores == [60, 60]
    requires PlayerById(s.players, s.currentTurn.playerId).cricketScores[T20].marks == 3
    ensures Undo(s).Ok? && UndoReadable(Undo(s).value) && Undo(Undo(s).value).Ok?
    ensures var r := Undo(Undo(s).value).value;
            && r.currentTurn.playerId == s.currentTurn.playerId && CricketReadable(r)
            && PlayerById(r.players, r.currentTurn.playerId).cricketScores[T20].marks == -3
  {
    UndoTrebleTwenty(s);
    var s3 := Undo(s).value;
    assert s3.currentTurn.scores == [60];
    UndoTrebleTwenty(s3);
  }

  /**
   * From no marks on 20, two treble 20s and two undos leave the thrower
   * at minus three marks on 20: the first undo takes off the three marks
   * the cap kept, the second three more.
   */
  lemma NegativeMarksReachable(s: GameState)
    requires UndoReadable(s) && DistinctIds(s.players) && s.gameType == Cricket && |s.currentTurn.scores| == 0
    requires PlayerById(s.players, s.currentTurn.playerId).cricketScores[T20].marks == 0
    ensures UndoReadable(AddCricket(s, 60, 20)) && AddCricket(s, 60, 20).gameType == Cricket
    ensures var s2 := AddCricket(AddCricket(s, 60, 20), 60, 20);
            && UndoReadable(s2) && Undo(s2).Ok? && UndoReadable(Undo(s2).value)
            && Undo(Undo(s2).value).Ok?
            && var s4 := Undo(Undo(s2).value).value;
               && s4.currentTurn.playerId == s.currentTurn.playerId && CricketReadable(s4)
               && PlayerById(s4.players, s4.currentTurn.playerId).cricketScores[T20].marks == -3
  {
    TwoTrebles(s);
    TwoUndos(AddCricket(AddCricket(s, 60, 20), 60, 20));
  }
}
