/**
 * The game-state reducer of the darts scorer: a pure function from a match
 * state and an action to the next match state, with its X01 and Cricket
 * rules, its rotation and undo logic, and the well-formedness invariant of
 * the states it is dispatched on.
 */
module GameContext {
  import opened GameTypes

  /** The five actions the user interface dispatches. */
  datatype GameAction =
    | AddScore(score: int, baseScore: int)
    | UndoScore
    | NextPlayer
    | StartGame(roster: seq<Player>, gameType: GameType, settings: GameSettings)
    | AdjustScore(playerId: PlayerId, newScore: int)

  /**
   * The reducer's one runtime failure on a well-formed state: undoing a
   * Cricket dart whose score decodes to a key that `cricketScores` lacks,
   * so that reading its `marks` throws.
   */
  datatype ReducerError = MissingTarget(lastScore: int)

  datatype Result<+T> = Ok(value: T) | Err(error: ReducerError)

  // ---------------------------------------------------------------------
  // The throws the score panel can dispatch
  // ---------------------------------------------------------------------

  /** The segment buttons: 15-20 and the bulls for Cricket, 1-20 and the bulls for X01. */
  predicate OfferedBase(g: GameType, base: int) {
    match g
    case X01 => (1 <= base <= 20) || base == 25 || base == 50
    case Cricket => (15 <= base <= 20) || base == 25 || base == 50
  }

  /**
   * A dispatched dart: a miss is (0, 0); a hit is (base * multiplier, base)
   * with multiplier 1, 2 or 3, except that the 50 button only fires single.
   */
  predicate ValidThrow(g: GameType, score: int, base: int) {
    || (score == 0 && base == 0)
    || (OfferedBase(g, base) &&
        (score == base || (base != 50 && (score == 2 * base || score == 3 * base))))
  }

  /** A score that some valid throw of game type `g` records. */
  ghost predicate ThrowScore(g: GameType, score: int) {
    exists base :: ValidThrow(g, score, base)
  }

  // ---------------------------------------------------------------------
  // Settings read as the untyped objects they are
  // ---------------------------------------------------------------------

  /** The configured X01 starting score; a missing or zero one means 501. */
  function StartingScore(settings: GameSettings): int {
    match settings
    case X01Settings(n, _) => if n == 0 then 501 else n
    case CricketSettings(_) => 501
  }

  /** Double-out is on only when the flag is present and true. */
  predicate DoubleOut(settings: GameSettings) {
    settings.X01Settings? && settings.doubleOut == Some(true)
  }

  /** The Cricket round limit, absent for settings that do not carry one. */
  function Rounds(settings: GameSettings): Option<RoundLimit> {
    match settings
    case CricketSettings(r) => r
    case X01Settings(_, _) => None
  }

  /** The next round lies past the Cricket round limit; with no limit set it never does. */
  predicate RoundLimitPassed(settings: GameSettings, nextRound: int) {
    Rounds(settings).Some? && nextRound > Rounds(settings).value
  }

  // ---------------------------------------------------------------------
  // Sequences of players
  // ---------------------------------------------------------------------

  /** The sum of a turn's scores, added up from the left. */
  function Sum(xs: seq<int>): int {
    if xs == [] then 0 else Sum(xs[..|xs| - 1]) + xs[|xs| - 1]
  }

  function Ids(ps: seq<PlayerState>): set<PlayerId> {
    set i | 0 <= i < |ps| :: ps[i].id
  }

  predicate DistinctIds(ps: seq<PlayerState>) {
    forall i, j :: 0 <= i < j < |ps| ==> ps[i].id != ps[j].id
  }

  predicate DistinctRoster(roster: seq<Player>) {
    forall i, j :: 0 <= i < j < |roster| ==> roster[i].id != roster[j].id
  }

  /** Two player sequences with the same ids in the same order. */
  predicate SameIds(ps: seq<PlayerState>, qs: seq<PlayerState>) {
    |ps| == |qs| && forall i :: 0 <= i < |ps| ==> ps[i].id == qs[i].id
  }

  /** Two player sequences whose turn flags agree. */
  predicate SameFlags(ps: seq<PlayerState>, qs: seq<PlayerState>) {
    |ps| == |qs| && forall i :: 0 <= i < |ps| ==> ps[i].current == qs[i].current
  }

  lemma SameIdsKeepIds(ps: seq<PlayerState>, qs: seq<PlayerState>)
    requires SameIds(ps, qs)
    ensures Ids(ps) == Ids(qs)
  {
    forall id | id in Ids(ps) ensures id in Ids(qs) {
      var i :| 0 <= i < |ps| && ps[i].id == id;
      assert qs[i].id == id;
    }
    forall id | id in Ids(qs) ensures id in Ids(ps) {
      var i :| 0 <= i < |qs| && qs[i].id == id;
      assert ps[i].id == id;
    }
  }

  lemma IdsTail(ps: seq<PlayerState>, id: PlayerId)
    requires id in Ids(ps) && ps[0].id != id
    ensures id in Ids(ps[1..])
  {
    var i :| 0 <= i < |ps| && ps[i].id == id;
    assert ps[1..][i - 1].id == id;
  }

  /** The index of the first player flagged as up, or -1 when no one is. */
  function FindIndexCurrent(ps: seq<PlayerState>): (r: int)
    ensures -1 <= r < |ps|
    ensures r >= 0 ==> ps[r].current && forall j :: 0 <= j < r ==> !ps[j].current
    ensures r == -1 <==> forall j :: 0 <= j < |ps| ==> !ps[j].current
  {
    if ps == [] then -1
    else if ps[0].current then 0
    else
      var k := FindIndexCurrent(ps[1..]);
      if k == -1 then -1 else k + 1
  }

  /** The index after the flagged player, wrapping; 0 when no one is flagged. */
  function NextIndex(ps: seq<PlayerState>): (r: nat)
    requires |ps| > 0
    ensures r < |ps|
  {
    (FindIndexCurrent(ps) + 1) % |ps|
  }

  /** The index of the first player carrying an id that is present. */
  function IndexOfId(ps: seq<PlayerState>, id: PlayerId): (r: nat)
    requires id in Ids(ps)
    ensures r < |ps| && ps[r].id == id
    ensures forall j :: 0 <= j < r ==> ps[j].id != id
  {
    if ps[0].id == id then 0
    else
      IdsTail(ps, id);
      1 + IndexOfId(ps[1..], id)
  }

  /** The first player carrying an id that is present. */
  function PlayerById(ps: seq<PlayerState>, id: PlayerId): PlayerState
    requires id in Ids(ps)
  {
    ps[IndexOfId(ps, id)]
  }

  /** Every player carrying the id gets the score v; everyone else is left as is. */
  function WithScore(ps: seq<PlayerState>, id: PlayerId, v: int): (r: seq<PlayerState>)
    ensures SameIds(ps, r) && SameFlags(ps, r)
  {
    seq(|ps|, i requires 0 <= i < |ps| =>
      if ps[i].id == id then ps[i].(score := v) else ps[i])
  }

  /** Every player carrying the id gains delta points; everyone else is left as is. */
  function ShiftScore(ps: seq<PlayerState>, id: PlayerId, delta: int): (r: seq<PlayerState>)
    ensures SameIds(ps, r) && SameFlags(ps, r)
  {
    seq(|ps|, i requires 0 <= i < |ps| =>
      if ps[i].id == id then ps[i].(score := ps[i].score + delta) else ps[i])
  }

  /** Only the player at index k is flagged as up. */
  function WithCurrent(ps: seq<PlayerState>, k: int): (r: seq<PlayerState>)
    ensures SameIds(ps, r)
    ensures forall i :: 0 <= i < |r| ==> (r[i].current <==> i == k)
  {
    seq(|ps|, i requires 0 <= i < |ps| => ps[i].(current := i == k))
  }

  /** No player is flagged as up. */
  function ClearCurrent(ps: seq<PlayerState>): (r: seq<PlayerState>)
    ensures SameIds(ps, r)
    ensures forall i :: 0 <= i < |r| ==> !r[i].current
  {
    seq(|ps|, i requires 0 <= i < |ps| => ps[i].(current := false))
  }

  // ---------------------------------------------------------------------
  // Cricket keys, marks and the undo decoder
  // ---------------------------------------------------------------------

  /** The number a key stands for on the board: 15 to 20, and 25 for the bull. */
  function KeyBase(t: Target): int {
    match t
    case T15 => 15
    case T16 => 16
    case T17 => 17
    case T18 => 18
    case T19 => 19
    case T20 => 20
    case Bull => 25
  }

  /** The key named by one of the numbers 15 to 20, if it is one. */
  function NumberTarget(n: int): (r: Option<Target>)
    ensures r.Some? <==> 15 <= n <= 20
    ensures r.Some? ==> KeyBase(r.value) == n
  {
    if n == 15 then Some(T15)
    else if n == 16 then Some(T16)
    else if n == 17 then Some(T17)
    else if n == 18 then Some(T18)
    else if n == 19 then Some(T19)
    else if n == 20 then Some(T20)
    else None
  }

  /** The scoring key of a base: both bulls map to the bull, 15-20 to themselves, anything else to none. */
  function AddKey(base: int): (r: Option<Target>)
    ensures r.Some? <==> (15 <= base <= 20) || base == 25 || base == 50
    ensures r == Some(Bull) <==> base == 25 || base == 50
    ensures r.Some? ==> KeyBase(r.value) == (if base == 50 then 25 else base)
  {
    if base == 25 || base == 50 then Some(Bull) else NumberTarget(base)
  }

  /** A score that is one, two or three times its base, as every scoring dart's is. */
  predicate Multiple(score: int, base: int) {
    score == base || score == 2 * base || score == 3 * base
  }

  /**
   * `score / base` for a score that is a multiple of its base: the
   * multiplier, found by cases so that no division by a variable arises.
   */
  function Quotient(score: int, base: int): (k: int)
    requires base != 0 && Multiple(score, base)
    ensures 1 <= k <= 3
  {
    if score == base then 1 else if score == 2 * base then 2 else 3
  }

  /** What a scoring dart's score and base must satisfy for the Cricket divisions to be whole. */
  predicate Divisible(score: int, base: int) {
    base != 0 && (if base == 25 || base == 50 then Multiple(score, 25) else Multiple(score, base))
  }

  /** Marks a scoring dart adds: 2 for the 50 button, otherwise score / base. */
  function MarksToAdd(score: int, base: int): int
    requires Divisible(score, base)
  {
    if base == 50 then 2 else Quotient(score, base)
  }

  /** The `targetsHit` increment: score / 25 for either bull, score / base otherwise. */
  function TargetsHitOf(score: int, base: int): int
    requires Divisible(score, base)
  {
    if base == 25 || base == 50 then Quotient(score, 25) else Quotient(score, base)
  }

  function Min(a: int, b: int): int { if a <= b then a else b }

  function Max(a: int, b: int): int { if a >= b then a else b }

  /** The thrower's marks on `key` become min(old + m, 3), closed at 3. */
  function MarkTarget(ps: seq<PlayerState>, tid: PlayerId, key: Target, m: int): (r: seq<PlayerState>)
    ensures SameIds(ps, r) && SameFlags(ps, r)
  {
    seq(|ps|, i requires 0 <= i < |ps| =>
      if ps[i].id == tid && ps[i].CricketPlayer? then
        var newMarks := Min(ps[i].cricketScores[key].marks + m, 3);
        ps[i].(cricketScores := ps[i].cricketScores[key := Mark(newMarks, newMarks >= 3)])
      else ps[i])
  }

  /** Every opponent that has not closed `key` gains `points`. */
  function AwardOverflow(ps: seq<PlayerState>, tid: PlayerId, key: Target, points: int): (r: seq<PlayerState>)
    ensures SameIds(ps, r) && SameFlags(ps, r)
  {
    seq(|ps|, i requires 0 <= i < |ps| =>
      if ps[i].id != tid && ps[i].CricketPlayer? && !ps[i].cricketScores[key].closed then
        ps[i].(score := ps[i].score + points)
      else ps[i])
  }

  /** The players after a Cricket dart on a valid key: the thrower's marks, then overflow points. */
  function ScoreTarget(ps: seq<PlayerState>, tid: PlayerId, key: Target, score: int, base: int): (r: seq<PlayerState>)
    requires tid in Ids(ps) && PlayerById(ps, tid).CricketPlayer? && Divisible(score, base)
    ensures SameIds(ps, r) && SameFlags(ps, r)
  {
    var m := MarksToAdd(score, base);
    var marked := MarkTarget(ps, tid, key, m);
    if m > 0 then
      var overflow := Max(0, PlayerById(ps, tid).cricketScores[key].marks + m - 3);
      if overflow > 0 then AwardOverflow(marked, tid, key, base * overflow) else marked
    else marked
  }

  /** Every one of the seven targets is closed. */
  predicate AllClosed(b: Board) {
    forall t: Target :: b[t].closed
  }

  /** Every player other than the one with id tid has at least v points. */
  function EveryAtLeast(ps: seq<PlayerState>, tid: PlayerId, v: int): (r: bool)
    ensures r <==> forall i :: 0 <= i < |ps| ==> ps[i].id == tid || ps[i].score >= v
  {
    if ps == [] then true
    else
      var rest := EveryAtLeast(ps[1..], tid, v);
      assert forall i :: 1 <= i < |ps| ==> ps[i] == ps[1..][i - 1];
      (ps[0].id == tid || ps[0].score >= v) && rest
  }

  /** Every player carries a Cricket board. */
  predicate AllCricket(ps: seq<PlayerState>) {
    forall i :: 0 <= i < |ps| ==> ps[i].CricketPlayer?
  }

  /** Every player other than the current one has closed the key. */
  function IsNumberClosedByOthers(key: Target, ps: seq<PlayerState>, currentPlayerId: PlayerId): (r: bool)
    requires AllCricket(ps)
    ensures r <==> forall i :: 0 <= i < |ps| && ps[i].id != currentPlayerId ==> ps[i].cricketScores[key].closed
  {
    if ps == [] then true
    else
      var rest := IsNumberClosedByOthers(key, ps[1..], currentPlayerId);
      assert forall i :: 1 <= i < |ps| ==> ps[i] == ps[1..][i - 1];
      (ps[0].id == currentPlayerId || ps[0].cricketScores[key].closed) && rest
  }

  /** What the undo path reads back from a Cricket score. */
  datatype Decoded = Decoded(key: Target, marksHit: int, base: int)

  /** x / 25 rounded up, for an integer x. */
  function CeilDiv25(x: int): int {
    -((-x) / 25)
  }

  /** The key a decoded base names: 25 names the bull, 15 to 20 name themselves, any other base names none. */
  function TargetOfBase(base: int): (r: Option<Target>)
    ensures r.Some? <==> (15 <= base <= 20) || base == 25
    ensures r.Some? ==> KeyBase(r.value) == base
  {
    if base == 25 then Some(Bull) else NumberTarget(base)
  }

  /**
   * `x / k` when it is a whole number. The divisors the decoder meets on
   * recorded darts, 1, 2 and 3, are taken by cases so that no division by
   * a variable arises.
   */
  function ExactQuotient(x: int, k: int): Option<int>
    requires k != 0
  {
    if k == 1 then Some(x)
    else if k == 2 then (if x % 2 == 0 then Some(x / 2) else None)
    else if k == 3 then (if x % 3 == 0 then Some(x / 3) else None)
    else if x % k == 0 then Some(x / k) else None
  }

  /**
   * The undo decoder: marksHit is 2 for a score of 50 and ceil(score / 25)
   * otherwise, and the base is score / marksHit. A zero marksHit gives
   * NaN or Infinity and an inexact division a fraction; neither names a
   * key, and neither does a whole base outside 15-20 and 25.
   */
  function UndoDecode(last: int): Option<Decoded> {
    var marksHit := if last == 50 then 2 else CeilDiv25(last);
    if marksHit == 0 then None
    else
      match ExactQuotient(last, marksHit)
      case None => None
      case Some(base) =>
        match TargetOfBase(base)
        case None => None
        case Some(k) => Some(Decoded(k, marksHit, base))
  }

  /** The players after a Cricket undo: the thrower's marks drop, opponents refunded only on `caused`. */
  function UnmarkTarget(ps: seq<PlayerState>, tid: PlayerId, key: Target, newMarks: int, caused: bool, points: int): (r: seq<PlayerState>)
    ensures SameIds(ps, r) && SameFlags(ps, r)
  {
    seq(|ps|, i requires 0 <= i < |ps| =>
      if ps[i].id == tid && ps[i].CricketPlayer? then
        ps[i].(cricketScores := ps[i].cricketScores[key := Mark(newMarks, newMarks >= 3)])
      else if caused && ps[i].CricketPlayer? && !ps[i].cricketScores[key].closed then
        ps[i].(score := ps[i].score - points)
      else ps[i])
  }

  // ---------------------------------------------------------------------
  // Well-formed states
  // ---------------------------------------------------------------------

  /** A Cricket board whose marks never exceed 3 and whose `closed` means 3 or more marks. */
  predicate BoardOk(b: Board) {
    forall t: Target :: b[t].marks <= 3 && (b[t].closed <==> b[t].marks >= 3)
  }

  /** A player entry of the shape its game type declares. */
  predicate Fits(g: GameType, p: PlayerState) {
    match g
    case X01 => p.X01Player?
    case Cricket => p.CricketPlayer? && BoardOk(p.cricketScores)
  }

  /** Some player is flagged as up. */
  predicate SomeoneUp(ps: seq<PlayerState>) {
    exists i :: 0 <= i < |ps| && ps[i].current
  }

  /**
   * The states that a started match passes through: at least two players
   * with distinct ids and the right shape, statistics for exactly those
   * ids, a turn that belongs to one of them and counts its scores, scores
   * that came from the score panel, and no flagged player other than the
   * one whose turn it is. While the match is not over, someone is flagged
   * (so the flagged player owns the turn) and the turn has fewer than 3
   * darts.
   */
  ghost predicate WellFormed(s: GameState) {
    && |s.players| >= 2
    && DistinctIds(s.players)
    && (forall i :: 0 <= i < |s.players| ==> Fits(s.gameType, s.players[i]))
    && s.playerStats.Keys == Ids(s.players)
    && s.currentTurn.playerId in Ids(s.players)
    && s.currentTurn.dartsThrown == |s.currentTurn.scores|
    && (forall k :: 0 <= k < |s.currentTurn.scores| ==> ThrowScore(s.gameType, s.currentTurn.scores[k]))
    && (forall i :: 0 <= i < |s.players| && s.players[i].current ==> s.players[i].id == s.currentTurn.playerId)
    && (!s.gameOver ==> SomeoneUp(s.players) && s.currentTurn.dartsThrown < 3)
  }

  /** What a dart reads without failing: the turn's owner is on the roster and has statistics. */
  predicate TurnReadable(s: GameState) {
    s.currentTurn.playerId in Ids(s.players) && s.currentTurn.playerId in s.playerStats
  }

  /** What a Cricket dart reads besides: the turn's owner carries a board. */
  predicate CricketReadable(s: GameState) {
    TurnReadable(s) && PlayerById(s.players, s.currentTurn.playerId).CricketPlayer?
  }

  /** What an undo reads: a readable turn that counts its scores. */
  predicate UndoReadable(s: GameState) {
    && TurnReadable(s)
    && s.currentTurn.dartsThrown == |s.currentTurn.scores|
    && (s.gameType == Cricket ==> CricketReadable(s))
  }

  lemma WellFormedReadable(s: GameState)
    requires WellFormed(s)
    ensures TurnReadable(s) && UndoReadable(s)
    ensures s.gameType == Cricket ==> CricketReadable(s)
  {
  }

  // ---------------------------------------------------------------------
  // The reducer
  // ---------------------------------------------------------------------

  /** START_GAME: fresh players, turn, log and statistics; the rest of the state is spread over. */
  function Start(s: GameState, roster: seq<Player>, g: GameType, settings: GameSettings): GameState
    requires |roster| > 0
  {
    var score := if g == X01 then StartingScore(settings) else 0;
    var players := seq(|roster|, i requires 0 <= i < |roster| =>
      if g == X01 then X01Player(roster[i].id, roster[i].name, score, i == 0, PlayerTotals(0, 0))
      else CricketPlayer(roster[i].id, roster[i].name, score, i == 0, NewBoard()));
    s.(gameType := g,
       settings := settings,
       currentRound := 1,
       maxRounds := if g == X01 then None else Rounds(settings),
       players := players,
       currentTurn := CurrentTurn(players[0].id, 0, []),
       gameOver := false,
       turns := [],
       playerStats := map id | id in Ids(players) :: Stats(0, 0, None))
  }

  /** The statistics after a dart: the thrower's totals take it in, with the given `targetsHit`; no other entry changes. */
  function CountDart(stats: map<PlayerId, Stats>, tid: PlayerId, score: int, targetsHit: Option<int>): map<PlayerId, Stats>
    requires tid in stats
  {
    stats[tid := Stats(stats[tid].totalScore + score, stats[tid].dartsThrown + 1, targetsHit)]
  }

  /** The thrower's X01 score less this dart, the `newScore` of an X01 dart. */
  function X01Remaining(s: GameState, score: int): int
    requires TurnReadable(s)
  {
    PlayerById(s.players, s.currentTurn.playerId).score - score
  }

  /** The score a bust goes back to: the thrower's score, plus the turn's darts so far once one is thrown. */
  function TurnStartScore(s: GameState): int
    requires TurnReadable(s)
  {
    var cur := PlayerById(s.players, s.currentTurn.playerId);
    if s.currentTurn.dartsThrown == 0 then cur.score else cur.score + Sum(s.currentTurn.scores)
  }

  /** The X01 bust test: below zero, or zero under double-out without base * 2 == score. */
  predicate X01Busts(s: GameState, score: int, base: int)
    requires TurnReadable(s)
  {
    X01Remaining(s, score) < 0 || (DoubleOut(s.settings) && X01Remaining(s, score) == 0 && base * 2 != score)
  }

  /** ADD_SCORE on an X01 match: the game-over guard, then bust, finish, 3-dart rotation or a plain dart. */
  function AddX01(s: GameState, score: int, base: int): GameState
    requires TurnReadable(s)
  {
    if s.gameOver then s
    else
      var t := s.currentTurn;
      var tid := t.playerId;
      var newScores := t.scores + [score];
      var darts := t.dartsThrown + 1;
      var cur := PlayerById(s.players, tid);
      var turnStart := TurnStartScore(s);
      var newScore := cur.score - score;
      var stats := CountDart(s.playerStats, tid, score, None);
      var logged := s.turns + [TurnRecord(tid, newScores)];
      // The bust test also asks for an X01 match, which always holds on this path.
      if newScore < 0 || (DoubleOut(s.settings) && newScore == 0 && base * 2 != score) then
        var next := NextIndex(s.players);
        s.(players := WithCurrent(WithScore(s.players, tid, turnStart), next),
           currentTurn := CurrentTurn(s.players[next].id, 0, []),
           turns := logged,
           playerStats := stats)
      else if newScore == 0 then
        s.(players := ClearCurrent(WithScore(s.players, tid, newScore)),
           gameOver := true,
           winnerId := Some(tid),
           currentTurn := t.(dartsThrown := darts, scores := newScores),
           turns := logged,
           playerStats := stats)
      else if darts == 3 then
        var next := NextIndex(s.players);
        s.(players := WithCurrent(WithScore(s.players, tid, newScore), next),
           currentTurn := CurrentTurn(s.players[next].id, 0, []),
           turns := logged,
           playerStats := stats)
      else
        s.(players := WithScore(s.players, tid, newScore),
           currentTurn := t.(dartsThrown := darts, scores := newScores),
           playerStats := stats)
  }

  /** The players after a Cricket dart: unchanged unless the base names one of the seven keys. */
  function CricketScored(s: GameState, score: int, base: int): (r: seq<PlayerState>)
    requires CricketReadable(s) && s.gameType == Cricket && ValidThrow(Cricket, score, base)
    ensures SameIds(s.players, r) && SameFlags(s.players, r)
  {
    var key := AddKey(base);
    if key.Some? then ScoreTarget(s.players, s.currentTurn.playerId, key.value, score, base) else s.players
  }

  /** The statistics after a Cricket dart: `targetsHit` grows by the dart's hits on a key, and by nothing on a miss. */
  function CricketCount(s: GameState, score: int, base: int): map<PlayerId, Stats>
    requires CricketReadable(s) && s.gameType == Cricket && ValidThrow(Cricket, score, base)
  {
    var tid := s.currentTurn.playerId;
    var hit := if AddKey(base).Some? then TargetsHitOf(score, base) else 0;
    CountDart(s.playerStats, tid, score, Some(s.playerStats[tid].targetsHit.GetOr(0) + hit))
  }

  /** The Cricket win test after a dart: the thrower has closed everything and no one scores lower. */
  predicate CricketWins(s: GameState, score: int, base: int)
    requires CricketReadable(s) && s.gameType == Cricket && ValidThrow(Cricket, score, base)
  {
    var updated := CricketScored(s, score, base);
    var tid := s.currentTurn.playerId;
    SameIdsKeepIds(s.players, updated);
    var cur := PlayerById(updated, tid);
    cur.CricketPlayer? && AllClosed(cur.cricketScores) && EveryAtLeast(updated, tid, cur.score)
  }

  /** ADD_SCORE on a Cricket match: marks and overflow, then the win test, then 3-dart rotation. */
  function AddCricket(s: GameState, score: int, base: int): GameState
    requires CricketReadable(s) && s.gameType == Cricket && ValidThrow(Cricket, score, base)
  {
    var t := s.currentTurn;
    var tid := t.playerId;
    var darts := t.dartsThrown + 1;
    var newScores := t.scores + [score];
    var stats := CricketCount(s, score, base);
    var updated := CricketScored(s, score, base);
    if CricketWins(s, score, base) then
      s.(players := ClearCurrent(updated),
         gameOver := true,
         winnerId := Some(tid),
         currentTurn := t.(dartsThrown := darts, scores := newScores),
         turns := s.turns + [TurnRecord(tid, newScores)],
         playerStats := stats)
    else if darts == 3 then
      var next := NextIndex(s.players);
      var nextRound := if next == 0 then s.currentRound + 1 else s.currentRound;
      var over := RoundLimitPassed(s.settings, nextRound);
      s.(currentRound := nextRound,
         gameOver := over,
         players := if over then ClearCurrent(updated) else WithCurrent(updated, next),
         currentTurn := CurrentTurn(s.players[next].id, 0, []),
         turns := s.turns + [TurnRecord(tid, newScores)],
         playerStats := stats)
    else
      s.(players := updated,
         currentTurn := t.(dartsThrown := darts, scores := newScores),
         playerStats := stats)
  }

  /** NEXT_PLAYER: rotate, count the round on wrap-around, and recompute `gameOver` from the round limit. */
  function Next(s: GameState): GameState
    requires |s.players| > 0
  {
    var next := NextIndex(s.players);
    var nextRound := if next == 0 then s.currentRound + 1 else s.currentRound;
    var over := s.gameType == Cricket && RoundLimitPassed(s.settings, nextRound);
    s.(currentRound := nextRound,
       gameOver := over,
       players := if over then ClearCurrent(s.players) else WithCurrent(s.players, next),
       currentTurn := CurrentTurn(s.players[next].id, 0, []))
  }

  /** UNDO_SCORE: pop the last dart of the current turn and revert its effect on the thrower. */
  function Undo(s: GameState): Result<GameState>
    requires UndoReadable(s)
  {
    var t := s.currentTurn;
    if |t.scores| == 0 then Ok(s)
    else
      var last := t.scores[|t.scores| - 1];
      var popped := t.(dartsThrown := t.dartsThrown - 1, scores := t.scores[..|t.scores| - 1]);
      if s.gameType == Cricket then
        match UndoDecode(last)
        case None => Err(MissingTarget(last))
        case Some(d) =>
          var prev := PlayerById(s.players, t.playerId).cricketScores[d.key].marks;
          var newMarks := prev - d.marksHit;
          var caused := prev <= 3 && newMarks + d.marksHit > 3;
          var points := if caused then d.base else 0;
          Ok(s.(players := UnmarkTarget(s.players, t.playerId, d.key, newMarks, caused, points),
                currentTurn := popped))
      else
        Ok(s.(players := ShiftScore(s.players, t.playerId, last), currentTurn := popped))
  }

  /** ADJUST_SCORE: overwrite the score of the player with the given id. */
  function Adjust(s: GameState, id: PlayerId, v: int): GameState {
    s.(players := WithScore(s.players, id, v))
  }

  /** What each action needs of the state it is dispatched on. */
  ghost predicate Dispatchable(s: GameState, a: GameAction) {
    match a
    case StartGame(roster, _, _) => |roster| >= 2 && DistinctRoster(roster)
    case AddScore(score, base) => WellFormed(s) && ValidThrow(s.gameType, score, base)
    case UndoScore => WellFormed(s)
    case NextPlayer => |s.players| > 0
    case AdjustScore(_, _) => true
  }

  /** The reducer: Cricket darts are routed away before the X01 game-over guard. */
  function Reduce(s: GameState, a: GameAction): Result<GameState>
    requires Dispatchable(s, a)
  {
    match a
    case StartGame(roster, g, settings) => Ok(Start(s, roster, g, settings))
    case AddScore(score, base) =>
      Ok(if s.gameType == Cricket then AddCricket(s, score, base) else AddX01(s, score, base))
    case UndoScore => Undo(s)
    case NextPlayer => Ok(Next(s))
    case AdjustScore(id, v) => Ok(Adjust(s, id, v))
  }
}
