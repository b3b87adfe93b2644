/**
 * The data model of a darts match: the type declarations of the scorer,
 * merged into one state record whose player entries are a sum type keyed
 * by the game type.
 */
module GameTypes {

  /** Optional values, standing for a field that may be `undefined`. */
  datatype Option<+T> = None | Some(value: T) {
    /** The value, or the default d when absent. */
    function GetOr(d: T): T {
      match this
      case Some(v) => v
      case None => d
    }
  }

  type PlayerId = string

  /** A game is either X01 or Cricket, nothing else. */
  datatype GameType = X01 | Cricket

  /** A roster entry as the setup page hands it to the reducer. */
  datatype Player = Player(id: PlayerId, name: string)

  /** The declared Cricket round limits. */
  type RoundLimit = r: nat | r == 15 || r == 20 witness 15

  /**
   * Settings of a match. X01 carries a starting score and an optional
   * double-out flag; Cricket an optional round limit (the setup page never
   * passes one).
   */
  datatype GameSettings =
    | X01Settings(startingScore: int, doubleOut: Option<bool>)
    | CricketSettings(rounds: Option<RoundLimit>)

  /** The per-player `stats` record that X01 player entries carry. */
  datatype PlayerTotals = PlayerTotals(totalScore: int, dartsThrown: nat)

  /** The seven Cricket targets: the numbers 15 to 20 and the bull. */
  datatype Target = T15 | T16 | T17 | T18 | T19 | T20 | Bull

  /** Marks on one Cricket target and whether it counts as closed. */
  datatype Mark = Mark(marks: int, closed: bool)

  const OpenBoard: map<Target, Mark> :=
    map[T15 := Mark(0, false), T16 := Mark(0, false), T17 := Mark(0, false),
        T18 := Mark(0, false), T19 := Mark(0, false), T20 := Mark(0, false),
        Bull := Mark(0, false)]

  lemma OpenBoardHasEveryTarget()
    ensures forall t: Target :: t in OpenBoard
  {
    forall t: Target ensures t in OpenBoard {
      match t
      case T15 => case T16 => case T17 => case T18 => case T19 => case T20 => case Bull =>
    }
  }

  /** All seven targets at no marks and open, as a new Cricket player starts. */
  function NewBoard(): (b: map<Target, Mark>)
    ensures forall t: Target :: t in b && b[t] == Mark(0, false)
  {
    OpenBoardHasEveryTarget();
    OpenBoard
  }

  /** A Cricket player's `cricketScores`: every one of the seven keys is present. */
  type Board = b: map<Target, Mark> | forall t: Target :: t in b
    witness NewBoard()

  /** A player entry of a match, shaped by the game type. */
  datatype PlayerState =
    | X01Player(id: PlayerId, name: string, score: int, current: bool, stats: PlayerTotals)
    | CricketPlayer(id: PlayerId, name: string, score: int, current: bool, cricketScores: Board)

  /** The turn in progress: whose it is, how many darts, and the ordered dart scores. */
  datatype CurrentTurn = CurrentTurn(playerId: PlayerId, dartsThrown: nat, scores: seq<int>)

  /** A logged turn: the player and the ordered dart scores. */
  datatype TurnRecord = TurnRecord(playerId: PlayerId, scores: seq<int>)

  /** Cumulative per-player statistics; `targetsHit` is only ever written by Cricket. */
  datatype Stats = Stats(totalScore: int, dartsThrown: nat, targetsHit: Option<int>)

  /** The whole match state. */
  datatype GameState = GameState(
    gameType: GameType,
    settings: GameSettings,
    players: seq<PlayerState>,
    currentTurn: CurrentTurn,
    turns: seq<TurnRecord>,
    playerStats: map<PlayerId, Stats>,
    currentRound: int,
    maxRounds: Option<RoundLimit>,
    gameOver: bool,
    winnerId: Option<PlayerId>)
}
