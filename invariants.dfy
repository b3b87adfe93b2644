/**
 * Every action keeps a started match well-formed, and START_GAME makes any
 * state well-formed: in particular the turn in progress always counts
 * exactly its recorded scores, Cricket marks never exceed 3, `closed`
 * always means three marks, and a match in progress has its turn's owner
 * flagged and fewer than three darts in the turn.
 */
module Invariants {
  import opened GameTypes
  import opened GameContext

  lemma IdAtIndex(ps: seq<PlayerState>, i: nat)
    requires i < |ps|
    ensures ps[i].id in Ids(ps)
  {
  }

  lemma SameIdsDistinct(ps: seq<PlayerState>, qs: seq<PlayerState>)
    requires SameIds(ps, qs) && DistinctIds(ps)
    ensures DistinctIds(qs) && Ids(qs) == Ids(ps)
  {
    SameIdsKeepIds(ps, qs);
  }

  /** With distinct ids, the player found by id is the one at any index carrying that id. */
  lemma PlayerByIdAt(ps: seq<PlayerState>, id: PlayerId, i: nat)
    requires DistinctIds(ps) && i < |ps| && ps[i].id == id
    ensures id in Ids(ps) && PlayerById(ps, id) == ps[i]
  {
    IdAtIndex(ps, i);
    var k := IndexOfId(ps, id);
    assert k == i;
  }

  /** Re-establishes the player part of well-formedness for a new player sequence. */
  lemma PlayersCarryOver(s: GameState, ps: seq<PlayerState>)
    requires WellFormed(s) && SameIds(s.players, ps)
    requires forall i :: 0 <= i < |ps| ==> Fits(s.gameType, ps[i])
    ensures Ids(ps) == Ids(s.players) && DistinctIds(ps) && |ps| >= 2
  {
    SameIdsKeepIds(s.players, ps);
  }

  /** Flags carried over unchanged keep someone up. */
  lemma FlagsKeepSomeoneUp(ps: seq<PlayerState>, qs: seq<PlayerState>)
    requires SameFlags(ps, qs) && SomeoneUp(ps)
    ensures SomeoneUp(qs)
  {
    var i :| 0 <= i < |ps| && ps[i].current;
    assert qs[i].current;
  }

  /** Well-formedness of a successor state, from facts about each of its parts. */
  lemma WellFormedFrom(s: GameState, r: GameState)
    requires WellFormed(s)
    requires r.gameType == s.gameType && r.playerStats.Keys == s.playerStats.Keys
    requires SameIds(s.players, r.players)
    requires forall i :: 0 <= i < |r.players| ==> Fits(r.gameType, r.players[i])
    requires r.currentTurn.playerId in Ids(s.players)
    requires r.currentTurn.dartsThrown == |r.currentTurn.scores|
    requires forall k :: 0 <= k < |r.currentTurn.scores| ==> ThrowScore(r.gameType, r.currentTurn.scores[k])
    requires forall i :: 0 <= i < |r.players| && r.players[i].current ==> r.players[i].id == r.currentTurn.playerId
    requires !r.gameOver ==> SomeoneUp(r.players) && r.currentTurn.dartsThrown < 3
    ensures WellFormed(r)
  {
    SameIdsDistinct(s.players, r.players);
    assert r.currentTurn.playerId in Ids(r.players);
    assert r.playerStats.Keys == Ids(r.players);
  }

  /** After rotating to `next`, the players still fit and the only flagged one is at `next`. */
  lemma RotatedTo(g: GameType, ps: seq<PlayerState>, qs: seq<PlayerState>, next: nat)
    requires SameIds(ps, qs) && next < |ps|
    requires forall i :: 0 <= i < |qs| ==> Fits(g, qs[i])
    ensures SameIds(ps, WithCurrent(qs, next))
    ensures forall i :: 0 <= i < |qs| ==> Fits(g, WithCurrent(qs, next)[i])
    ensures forall i :: 0 <= i < |qs| && WithCurrent(qs, next)[i].current ==> WithCurrent(qs, next)[i].id == ps[next].id
    ensures SomeoneUp(WithCurrent(qs, next))
  {
    assert WithCurrent(qs, next)[next].current;
  }

  /** Clearing every flag keeps the players fitting. */
  lemma ClearedFit(g: GameType, ps: seq<PlayerState>, qs: seq<PlayerState>)
    requires SameIds(ps, qs)
    requires forall i :: 0 <= i < |qs| ==> Fits(g, qs[i])
    ensures SameIds(ps, ClearCurrent(qs))
    ensures forall i :: 0 <= i < |qs| ==> Fits(g, ClearCurrent(qs)[i]) && !ClearCurrent(qs)[i].current
  {
  }

  /** Overwriting a score keeps the players fitting. */
  lemma WithScoreFits(g: GameType, ps: seq<PlayerState>, id: PlayerId, v: int)
    requires forall i :: 0 <= i < |ps| ==> Fits(g, ps[i])
    ensures forall i :: 0 <= i < |ps| ==> Fits(g, WithScore(ps, id, v)[i])
  {
  }

  lemma ThrowScoreNonNegative(g: GameType, x: int)
    requires ThrowScore(g, x)
    ensures x >= 0
  {
    var base :| ValidThrow(g, x, base);
  }

  lemma ValidThrowScore(g: GameType, score: int, base: int)
    requires ValidThrow(g, score, base)
    ensures ThrowScore(g, score)
  {
  }

  /** The recorded scores of a turn after one more valid dart all came from the score panel. */
  lemma ExtendedScores(g: GameType, xs: seq<int>, score: int, base: int)
    requires forall k :: 0 <= k < |xs| ==> ThrowScore(g, xs[k])
    requires ValidThrow(g, score, base)
    ensures forall k :: 0 <= k < |xs + [score]| ==> ThrowScore(g, (xs + [score])[k])
  {
    ValidThrowScore(g, score, base);
  }

  lemma StartWellFormed(s: GameState, roster: seq<Player>, g: GameType, settings: GameSettings)
    requires |roster| >= 2 && DistinctRoster(roster)
    ensures WellFormed(Start(s, roster, g, settings))
  {
    var r := Start(s, roster, g, settings);
    IdAtIndex(r.players, 0);
    assert r.players[0].current;
    forall i | 0 <= i < |r.players| ensures Fits(g, r.players[i]) {
      if g == Cricket {
        assert r.players[i].cricketScores == NewBoard();
      }
    }
  }

  /** A successor whose turn starts afresh with player `next`, from players `ps` that fit. */
  lemma FreshTurnWellFormed(s: GameState, r: GameState, ps: seq<PlayerState>, next: nat)
    requires WellFormed(s) && next < |s.players|
    requires SameIds(s.players, ps) && forall i :: 0 <= i < |ps| ==> Fits(s.gameType, ps[i])
    requires r.gameType == s.gameType && r.playerStats.Keys == s.playerStats.Keys
    requires r.players == WithCurrent(ps, next) || (r.players == ClearCurrent(ps) && r.gameOver)
    requires r.currentTurn == CurrentTurn(s.players[next].id, 0, [])
    ensures WellFormed(r)
  {
    IdAtIndex(s.players, next);
    if r.players == WithCurrent(ps, next) {
      RotatedTo(s.gameType, s.players, ps, next);
    } else {
      ClearedFit(s.gameType, s.players, ps);
    }
    WellFormedFrom(s, r);
  }

  /** A successor whose turn goes on with one more valid dart, from players `ps` that fit. */
  lemma ExtendedTurnWellFormed(s: GameState, r: GameState, ps: seq<PlayerState>, score: int, base: int)
    requires WellFormed(s) && ValidThrow(s.gameType, score, base)
    requires SameIds(s.players, ps) && forall i :: 0 <= i < |ps| ==> Fits(s.gameType, ps[i])
    requires r.gameType == s.gameType && r.playerStats.Keys == s.playerStats.Keys
    requires || (r.players == ClearCurrent(ps) && r.gameOver)
             || (r.players == ps && SameFlags(s.players, ps) && r.gameOver == s.gameOver && s.currentTurn.dartsThrown + 1 != 3)
    requires r.currentTurn == CurrentTurn(s.currentTurn.playerId, s.currentTurn.dartsThrown + 1, s.currentTurn.scores + [score])
    ensures WellFormed(r)
  {
    ExtendedScores(s.gameType, s.currentTurn.scores, score, base);
    if r.players == ClearCurrent(ps) && r.gameOver {
      ClearedFit(s.gameType, s.players, ps);
    } else if !s.gameOver {
      FlagsKeepSomeoneUp(s.players, ps);
    }
    WellFormedFrom(s, r);
  }

  /** The parts of the bust state that well-formedness reads. */
  lemma X01BustShape(s: GameState, score: int, base: int)
    requires TurnReadable(s) && s.gameType == X01 && !s.gameOver
    requires X01Busts(s, score, base)
    ensures var r := AddX01(s, score, base);
            && r.gameType == s.gameType
            && r.players == WithCurrent(WithScore(s.players, s.currentTurn.playerId, TurnStartScore(s)), NextIndex(s.players))
            && r.currentTurn == CurrentTurn(s.players[NextIndex(s.players)].id, 0, [])
            && r.playerStats.Keys == s.playerStats.Keys
  {
  }

  lemma X01BustWellFormed(s: GameState, score: int, base: int)
    requires WellFormed(s) && s.gameType == X01 && ValidThrow(s.gameType, score, base) && !s.gameOver
    requires X01Busts(s, score, base)
    ensures WellFormed(AddX01(s, score, base))
  {
    var ps := WithScore(s.players, s.currentTurn.playerId, TurnStartScore(s));
    WithScoreFits(X01, s.players, s.currentTurn.playerId, TurnStartScore(s));
    X01BustShape(s, score, base);
    FreshTurnWellFormed(s, AddX01(s, score, base), ps, NextIndex(s.players));
  }

  /** The parts of the finish state that well-formedness reads. */
  lemma X01FinishShape(s: GameState, score: int, base: int)
    requires TurnReadable(s) && s.gameType == X01 && !s.gameOver
    requires !X01Busts(s, score, base) && X01Remaining(s, score) == 0
    ensures var t := s.currentTurn;
            var r := AddX01(s, score, base);
            && r.gameType == s.gameType
            && r.players == ClearCurrent(WithScore(s.players, t.playerId, 0)) && r.gameOver
            && r.currentTurn == CurrentTurn(t.playerId, t.dartsThrown + 1, t.scores + [score])
            && r.playerStats.Keys == s.playerStats.Keys
  {
  }

  lemma X01FinishWellFormed(s: GameState, score: int, base: int)
    requires WellFormed(s) && s.gameType == X01 && ValidThrow(s.gameType, score, base) && !s.gameOver
    requires !X01Busts(s, score, base) && X01Remaining(s, score) == 0
    ensures WellFormed(AddX01(s, score, base))
  {
    WithScoreFits(X01, s.players, s.currentTurn.playerId, 0);
    X01FinishShape(s, score, base);
    ExtendedTurnWellFormed(s, AddX01(s, score, base), WithScore(s.players, s.currentTurn.playerId, 0), score, base);
  }

  /** The parts of the 3-dart rotation state that well-formedness reads. */
  lemma X01RotateShape(s: GameState, score: int, base: int)
    requires TurnReadable(s) && s.gameType == X01 && !s.gameOver
    requires !X01Busts(s, score, base) && X01Remaining(s, score) != 0 && s.currentTurn.dartsThrown + 1 == 3
    ensures var t := s.currentTurn;
            var r := AddX01(s, score, base);
            && r.gameType == s.gameType
            && r.players == WithCurrent(WithScore(s.players, t.playerId, X01Remaining(s, score)), NextIndex(s.players))
            && r.currentTurn == CurrentTurn(s.players[NextIndex(s.players)].id, 0, [])
            && r.playerStats.Keys == s.playerStats.Keys
  {
  }

  lemma X01RotateWellFormed(s: GameState, score: int, base: int)
    requires WellFormed(s) && s.gameType == X01 && ValidThrow(s.gameType, score, base) && !s.gameOver
    requires !X01Busts(s, score, base) && X01Remaining(s, score) != 0 && s.currentTurn.dartsThrown + 1 == 3
    ensures WellFormed(AddX01(s, score, base))
  {
    var ps := WithScore(s.players, s.currentTurn.playerId, X01Remaining(s, score));
    WithScoreFits(X01, s.players, s.currentTurn.playerId, X01Remaining(s, score));
    X01RotateShape(s, score, base);
    FreshTurnWellFormed(s, AddX01(s, score, base), ps, NextIndex(s.players));
  }

  /** The parts of the plain-dart state that well-formedness reads. */
  lemma X01ContinueShape(s: GameState, score: int, base: int)
    requires TurnReadable(s) && s.gameType == X01 && !s.gameOver
    requires !X01Busts(s, score, base) && X01Remaining(s, score) != 0 && s.currentTurn.dartsThrown + 1 != 3
    ensures var t := s.currentTurn;
            var r := AddX01(s, score, base);
            && r.gameType == s.gameType
            && r.players == WithScore(s.players, t.playerId, X01Remaining(s, score)) && r.gameOver == s.gameOver
            && r.currentTurn == CurrentTurn(t.playerId, t.dartsThrown + 1, t.scores + [score])
            && r.playerStats.Keys == s.playerStats.Keys
  {
  }

  lemma X01ContinueWellFormed(s: GameState, score: int, base: int)
    requires WellFormed(s) && s.gameType == X01 && ValidThrow(s.gameType, score, base) && !s.gameOver
    requires !X01Busts(s, score, base) && X01Remaining(s, score) != 0 && s.currentTurn.dartsThrown + 1 != 3
    ensures WellFormed(AddX01(s, score, base))
  {
    var ps := WithScore(s.players, s.currentTurn.playerId, X01Remaining(s, score));
    WithScoreFits(X01, s.players, s.currentTurn.playerId, X01Remaining(s, score));
    X01ContinueShape(s, score, base);
    ExtendedTurnWellFormed(s, AddX01(s, score, base), ps, score, base);
  }

  lemma AddX01WellFormed(s: GameState, score: int, base: int)
    requires WellFormed(s) && s.gameType == X01 && ValidThrow(s.gameType, score, base)
    ensures WellFormed(AddX01(s, score, base))
  {
    if s.gameOver {
    } else if X01Busts(s, score, base) {
      X01BustWellFormed(s, score, base);
    } else if X01Remaining(s, score) == 0 {
      X01FinishWellFormed(s, score, base);
    } else if s.currentTurn.dartsThrown + 1 == 3 {
      X01RotateWellFormed(s, score, base);
    } else {
      X01ContinueWellFormed(s, score, base);
    }
  }

  /** Marking a target keeps every Cricket board within the mark bounds. */
  lemma MarkTargetFits(ps: seq<PlayerState>, tid: PlayerId, key: Target, m: int)
    requires forall i :: 0 <= i < |ps| ==> Fits(Cricket, ps[i])
    ensures forall i :: 0 <= i < |ps| ==> Fits(Cricket, MarkTarget(ps, tid, key, m)[i])
  {
    var r := MarkTarget(ps, tid, key, m);
    forall i | 0 <= i < |ps| ensures Fits(Cricket, r[i]) {
      if ps[i].id == tid {
        var b := r[i].cricketScores;
        forall t: Target ensures b[t].marks <= 3 && (b[t].closed <==> b[t].marks >= 3) {
          if t != key {
            assert b[t] == ps[i].cricketScores[t];
          }
        }
      }
    }
  }

  lemma ScoreTargetFits(ps: seq<PlayerState>, tid: PlayerId, key: Target, score: int, base: int)
    requires forall i :: 0 <= i < |ps| ==> Fits(Cricket, ps[i])
    requires tid in Ids(ps) && PlayerById(ps, tid).CricketPlayer? && Divisible(score, base)
    ensures forall i :: 0 <= i < |ps| ==> Fits(Cricket, ScoreTarget(ps, tid, key, score, base)[i])
  {
    MarkTargetFits(ps, tid, key, MarksToAdd(score, base));
  }

  lemma CricketScoredFits(s: GameState, score: int, base: int)
    requires WellFormed(s) && s.gameType == Cricket && ValidThrow(Cricket, score, base)
    ensures forall i :: 0 <= i < |s.players| ==> Fits(Cricket, CricketScored(s, score, base)[i])
  {
    var key := AddKey(base);
    if key.Some? {
      ScoreTargetFits(s.players, s.currentTurn.playerId, key.value, score, base);
    }
  }

  /** The parts of the Cricket win state that well-formedness reads. */
  lemma CricketWinShape(s: GameState, score: int, base: int)
    requires CricketReadable(s) && s.gameType == Cricket && ValidThrow(Cricket, score, base)
    requires CricketWins(s, score, base)
    ensures var r := AddCricket(s, score, base);
            var t := s.currentTurn;
            && r.gameType == s.gameType
            && r.players == ClearCurrent(CricketScored(s, score, base)) && r.gameOver
            && r.currentTurn == CurrentTurn(t.playerId, t.dartsThrown + 1, t.scores + [score])
            && r.playerStats.Keys == s.playerStats.Keys
  {
  }

  lemma CricketWinWellFormed(s: GameState, score: int, base: int)
    requires WellFormed(s) && s.gameType == Cricket && ValidThrow(s.gameType, score, base)
    requires CricketWins(s, score, base)
    ensures WellFormed(AddCricket(s, score, base))
  {
    CricketScoredFits(s, score, base);
    CricketWinShape(s, score, base);
    ExtendedTurnWellFormed(s, AddCricket(s, score, base), CricketScored(s, score, base), score, base);
  }

  /** The parts of the 3-dart Cricket rotation state that well-formedness reads. */
  lemma CricketRotateShape(s: GameState, score: int, base: int)
    requires CricketReadable(s) && s.gameType == Cricket && ValidThrow(Cricket, score, base)
    requires !CricketWins(s, score, base) && s.currentTurn.dartsThrown + 1 == 3
    ensures var r := AddCricket(s, score, base);
            var next := NextIndex(s.players);
            && r.gameType == s.gameType
            && (r.players == WithCurrent(CricketScored(s, score, base), next) || (r.players == ClearCurrent(CricketScored(s, score, base)) && r.gameOver))
            && r.currentTurn == CurrentTurn(s.players[next].id, 0, [])
            && r.playerStats.Keys == s.playerStats.Keys
  {
  }

  lemma CricketRotateWellFormed(s: GameState, score: int, base: int)
    requires WellFormed(s) && s.gameType == Cricket && ValidThrow(s.gameType, score, base)
    requires !CricketWins(s, score, base) && s.currentTurn.dartsThrown + 1 == 3
    ensures WellFormed(AddCricket(s, score, base))
  {
    CricketScoredFits(s, score, base);
    CricketRotateShape(s, score, base);
    FreshTurnWellFormed(s, AddCricket(s, score, base), CricketScored(s, score, base), NextIndex(s.players));
  }

  /** The parts of the plain Cricket dart state that well-formedness reads. */
  lemma CricketContinueShape(s: GameState, score: int, base: int)
    requires CricketReadable(s) && s.gameType == Cricket && ValidThrow(Cricket, score, base)
    requires !CricketWins(s, score, base) && s.currentTurn.dartsThrown + 1 != 3
    ensures var r := AddCricket(s, score, base);
            var t := s.currentTurn;
            && r.gameType == s.gameType
            && r.players == CricketScored(s, score, base) && r.gameOver == s.gameOver
            && r.currentTurn == CurrentTurn(t.playerId, t.dartsThrown + 1, t.scores + [score])
            && r.playerStats.Keys == s.playerStats.Keys
  {
  }

  lemma CricketContinueWellFormed(s: GameState, score: int, base: int)
    requires WellFormed(s) && s.gameType == Cricket && ValidThrow(s.gameType, score, base)
    requires !CricketWins(s, score, base) && s.currentTurn.dartsThrown + 1 != 3
    ensures WellFormed(AddCricket(s, score, base))
  {
    CricketScoredFits(s, score, base);
    CricketContinueShape(s, score, base);
    ExtendedTurnWellFormed(s, AddCricket(s, score, base), CricketScored(s, score, base), score, base);
  }

  lemma AddCricketWellFormed(s: GameState, score: int, base: int)
    requires WellFormed(s) && s.gameType == Cricket && ValidThrow(s.gameType, score, base)
    ensures WellFormed(AddCricket(s, score, base))
  {
    if CricketWins(s, score, base) {
      CricketWinWellFormed(s, score, base);
    } else if s.currentTurn.dartsThrown + 1 == 3 {
      CricketRotateWellFormed(s, score, base);
    } else {
      CricketContinueWellFormed(s, score, base);
    }
  }

  lemma NextWellFormed(s: GameState)
    requires WellFormed(s)
    ensures WellFormed(Next(s))
  {
    IdAtIndex(s.players, NextIndex(s.players));
    PlayersCarryOver(s, Next(s).players);
    assert !Next(s).gameOver ==> Next(s).players[NextIndex(s.players)].current;
  }

  /** The scores of a turn with its last dart popped still came from the score panel. */
  lemma PoppedScores(g: GameType, xs: seq<int>, ys: seq<int>)
    requires |xs| > 0 && ys == xs[..|xs| - 1]
    requires forall k :: 0 <= k < |xs| ==> ThrowScore(g, xs[k])
    ensures forall k :: 0 <= k < |ys| ==> ThrowScore(g, ys[k])
  {
    assert forall k :: 0 <= k < |ys| ==> ys[k] == xs[k];
  }

  /** Setting a key's marks to at most 3, with `closed` recomputed, keeps every board within bounds. */
  lemma UnmarkFits(g: GameType, ps: seq<PlayerState>, r: seq<PlayerState>, tid: PlayerId, key: Target, newMarks: int, caused: bool, points: int)
    requires g == Cricket && forall i :: 0 <= i < |ps| ==> Fits(g, ps[i])
    requires newMarks <= 3 && r == UnmarkTarget(ps, tid, key, newMarks, caused, points)
    ensures forall i :: 0 <= i < |r| ==> Fits(g, r[i])
  {
    forall i | 0 <= i < |ps| ensures Fits(Cricket, r[i]) {
      if ps[i].id == tid {
        var b := r[i].cricketScores;
        forall tg: Target ensures b[tg].marks <= 3 && (b[tg].closed <==> b[tg].marks >= 3) {
          if tg != key {
            assert b[tg] == ps[i].cricketScores[tg];
          }
        }
      }
    }
  }

  /** A successor whose turn has its last dart popped, from players `ps` that fit and keep the flags. */
  lemma PoppedTurnWellFormed(s: GameState, r: GameState, ps: seq<PlayerState>)
    requires WellFormed(s) && |s.currentTurn.scores| > 0
    requires SameIds(s.players, ps) && SameFlags(s.players, ps) && forall i :: 0 <= i < |ps| ==> Fits(s.gameType, ps[i])
    requires r.gameType == s.gameType && r.playerStats.Keys == s.playerStats.Keys && r.players == ps && r.gameOver == s.gameOver
    requires var t := s.currentTurn;
             r.currentTurn == CurrentTurn(t.playerId, t.dartsThrown - 1, t.scores[..|t.scores| - 1])
    ensures WellFormed(r)
  {
    PoppedScores(s.gameType, s.currentTurn.scores, r.currentTurn.scores);
    if !s.gameOver {
      FlagsKeepSomeoneUp(s.players, ps);
    }
    WellFormedFrom(s, r);
  }

  /** The parts of a successful Cricket undo that well-formedness reads; the refund branch never fires. */
  lemma CricketUndoShape(s: GameState) returns (d: Decoded, prev: int)
    requires UndoReadable(s) && s.gameType == Cricket && |s.currentTurn.scores| > 0
    requires Undo(s).Ok?
    ensures var t := s.currentTurn;
            var r := Undo(s).value;
            && UndoDecode(t.scores[|t.scores| - 1]) == Some(d)
            && prev == PlayerById(s.players, t.playerId).cricketScores[d.key].marks
            && r.gameType == s.gameType && r.playerStats == s.playerStats && r.gameOver == s.gameOver
            && r.players == UnmarkTarget(s.players, t.playerId, d.key, prev - d.marksHit, false, 0)
            && r.currentTurn == CurrentTurn(t.playerId, t.dartsThrown - 1, t.scores[..|t.scores| - 1])
  {
    var t := s.currentTurn;
    d := UndoDecode(t.scores[|t.scores| - 1]).value;
    prev := PlayerById(s.players, t.playerId).cricketScores[d.key].marks;
  }

  /** Any successor of the Cricket undo's shape, d being the decoded dart, is well-formed: the thrower's marks only drop. */
  lemma UnmarkedWellFormed(s: GameState, r: GameState, d: Decoded, prev: int)
    requires WellFormed(s) && s.gameType == Cricket && |s.currentTurn.scores| > 0
    requires d.marksHit >= 1
    requires prev == PlayerById(s.players, s.currentTurn.playerId).cricketScores[d.key].marks
    requires r.gameType == s.gameType && r.playerStats == s.playerStats && r.gameOver == s.gameOver
    requires r.players == UnmarkTarget(s.players, s.currentTurn.playerId, d.key, prev - d.marksHit, false, 0)
    requires var t := s.currentTurn;
             r.currentTurn == CurrentTurn(t.playerId, t.dartsThrown - 1, t.scores[..|t.scores| - 1])
    ensures WellFormed(r)
  {
    UndoneFits(s.gameType, s.players, r.players, s.currentTurn.playerId, d.key, d.marksHit, prev);
    PoppedTurnWellFormed(s, r, r.players);
  }

  /** Taking back at least one mark of the thrower leaves every seat fitting: the marks were on the board. */
  lemma UndoneFits(g: GameType, ps: seq<PlayerState>, r: seq<PlayerState>, tid: PlayerId, key: Target, marksHit: int, prev: int)
    requires g == Cricket && (forall i :: 0 <= i < |ps| ==> Fits(g, ps[i])) && tid in Ids(ps) && PlayerById(ps, tid).CricketPlayer?
    requires marksHit >= 1 && prev == PlayerById(ps, tid).cricketScores[key].marks
    requires r == UnmarkTarget(ps, tid, key, prev - marksHit, false, 0)
    ensures forall i :: 0 <= i < |r| ==> Fits(g, r[i])
  {
    MarksOnBoard(g, ps, tid, key);
    UnmarkFits(g, ps, r, tid, key, prev - marksHit, false, 0);
  }

  /** A decoded panel score took at least one mark. */
  lemma DecodedMarks(g: GameType, last: int, d: Decoded)
    requires ThrowScore(g, last) && UndoDecode(last) == Some(d)
    ensures d.marksHit >= 1
  {
    ThrowScoreNonNegative(g, last);
  }

  /** A fitting Cricket player has at most 3 marks on any key. */
  lemma MarksOnBoard(g: GameType, ps: seq<PlayerState>, tid: PlayerId, key: Target)
    requires g == Cricket && (forall i :: 0 <= i < |ps| ==> Fits(g, ps[i])) && tid in Ids(ps)
    ensures PlayerById(ps, tid).CricketPlayer? && PlayerById(ps, tid).cricketScores[key].marks <= 3
  {
    assert Fits(g, ps[IndexOfId(ps, tid)]);
  }

  lemma CricketUndoWellFormed(s: GameState)
    requires WellFormed(s) && s.gameType == Cricket && |s.currentTurn.scores| > 0
    requires Undo(s).Ok?
    ensures WellFormed(Undo(s).value)
  {
    var d, prev := CricketUndoShape(s);
    DecodedMarks(s.gameType, s.currentTurn.scores[|s.currentTurn.scores| - 1], d);
    UnmarkedWellFormed(s, Undo(s).value, d, prev);
  }

  lemma X01UndoWellFormed(s: GameState)
    requires WellFormed(s) && s.gameType == X01 && |s.currentTurn.scores| > 0
    ensures Undo(s).Ok? && WellFormed(Undo(s).value)
  {
    PoppedScores(s.gameType, s.currentTurn.scores, s.currentTurn.scores[..|s.currentTurn.scores| - 1]);
    if !s.gameOver {
      FlagsKeepSomeoneUp(s.players, Undo(s).value.players);
    }
    WellFormedFrom(s, Undo(s).value);
  }

  lemma UndoWellFormed(s: GameState)
    requires WellFormed(s)
    ensures Undo(s).Ok? ==> WellFormed(Undo(s).value)
  {
    if |s.currentTurn.scores| == 0 {
    } else if s.gameType == Cricket {
      if Undo(s).Ok? {
        CricketUndoWellFormed(s);
      }
    } else {
      X01UndoWellFormed(s);
    }
  }

  lemma AdjustWellFormed(s: GameState, id: PlayerId, v: int)
    requires WellFormed(s)
    ensures WellFormed(Adjust(s, id, v))
  {
    PlayersCarryOver(s, Adjust(s, id, v).players);
    if !s.gameOver {
      FlagsKeepSomeoneUp(s.players, Adjust(s, id, v).players);
    }
  }

  /**
   * The reducer keeps a started match well-formed, whatever the action, and
   * START_GAME yields a well-formed match from any state.
   */
  lemma ReducePreservesWellFormed(s: GameState, a: GameAction)
    requires Dispatchable(s, a) && (a.StartGame? || WellFormed(s))
    ensures Reduce(s, a).Ok? ==> WellFormed(Reduce(s, a).value)
  {
    match a
    case StartGame(roster, g, settings) => StartWellFormed(s, roster, g, settings);
    case AddScore(score, base) =>
      if s.gameType == Cricket {
        AddCricketWellFormed(s, score, base);
      } else {
        AddX01WellFormed(s, score, base);
      }
    case UndoScore => UndoWellFormed(s);
    case NextPlayer => NextWellFormed(s);
    case AdjustScore(id, v) => AdjustWellFormed(s, id, v);
  }
}
