/**
 * The score panel: the multiplier it keeps between presses, the actions
 * its buttons dispatch, and the conditions under which each button is
 * enabled.
 */
module ScoreInput {
  import opened GameTypes
  import opened GameContext

  /** The Single, Double and Triple selector values. */
  type Multiplier = m: int | 1 <= m <= 3 witness 1

  /** The segment buttons on the panel of each game type, in panel order. */
  function Buttons(g: GameType): seq<int> {
    match g
    case Cricket => [15, 16, 17, 18, 19, 20, 25, 50]
    case X01 => [1, 2, 3, 4, 5, 6, 7, 8, 9, 10, 11, 12, 13, 14, 15, 16, 17, 18, 19, 20, 25, 50]
  }

  /** A segment button is enabled unless the match is over, or it is the 50 button with Double or Triple selected. */
  predicate ThrowEnabled(s: GameState, m: Multiplier, base: int) {
    !s.gameOver && !(base == 50 && m > 1)
  }

  /** The miss button is enabled unless the match is over. */
  predicate MissEnabled(s: GameState) {
    !s.gameOver
  }

  /** Undo is enabled when the current turn has a score to take back. */
  predicate UndoEnabled(s: GameState) {
    |s.currentTurn.scores| != 0
  }

  /** Next Player is enabled once a dart of the turn is counted. */
  predicate NextEnabled(s: GameState) {
    s.currentTurn.dartsThrown != 0
  }

  /** The panel's own state: the selected multiplier. */
  class Panel {
    var multiplier: Multiplier

    /** A fresh panel selects Single. */
    constructor()
      ensures multiplier == 1
    {
      multiplier := 1;
    }

    /** The Single, Double and Triple buttons. */
    method Select(m: Multiplier)
      modifies this
      ensures multiplier == m
    {
      multiplier := m;
    }

    /** A segment press: the dart is the base times the selected multiplier, then Single is selected again. */
    method HandleScore(base: int) returns (a: GameAction)
      modifies this
      ensures a == AddScore(base * old(multiplier), base)
      ensures multiplier == 1
    {
      var score := base * multiplier;
      a := AddScore(score, base);
      multiplier := 1;
    }

    /** The miss button: a dart of 0 on base 0, then Single is selected again. */
    method HandleMiss() returns (a: GameAction)
      modifies this
      ensures a == AddScore(0, 0)
      ensures multiplier == 1
    {
      a := AddScore(0, 0);
      multiplier := 1;
    }
  }

  /** Each panel offers exactly the bases its game type scores. */
  lemma ButtonsOffered(g: GameType, base: int)
    ensures base in Buttons(g) <==> OfferedBase(g, base)
  {
    if OfferedBase(g, base) && g == X01 && 1 <= base <= 20 {
      assert Buttons(g)[base - 1] == base;
    } else if OfferedBase(g, base) && g == Cricket && 15 <= base <= 20 {
      assert Buttons(g)[base - 15] == base;
    }
  }

  /** A press of an enabled segment button dispatches a valid throw; 25 is enabled at every multiplier. */
  lemma PressIsValid(s: GameState, m: Multiplier, base: int)
    requires base in Buttons(s.gameType) && ThrowEnabled(s, m, base)
    ensures ValidThrow(s.gameType, base * m, base)
  {
    ButtonsOffered(s.gameType, base);
  }

  /** The only segment button a multiplier disables is 50, and it is disabled for Double and Triple alike. */
  lemma OnlyFiftyIsBlocked(s: GameState, m: Multiplier, base: int)
    requires !s.gameOver
    ensures !ThrowEnabled(s, m, base) <==> base == 50 && m != 1
  {
  }

  /**
   * Every valid throw comes from the panel: either the miss button, or an
   * offered segment at a multiplier that leaves it enabled on a match in
   * progress.
   */
  lemma ValidThrowFromPanel(s: GameState, score: int, base: int)
    requires !s.gameOver && ValidThrow(s.gameType, score, base)
    ensures (score == 0 && base == 0) ||
            exists m: Multiplier :: base in Buttons(s.gameType) && ThrowEnabled(s, m, base) && score == base * m
  {
    if !(score == 0 && base == 0) {
      ButtonsOffered(s.gameType, base);
      var m: Multiplier := if score == base then 1 else if score == 2 * base then 2 else 3;
      assert score == base * m;
      assert ThrowEnabled(s, m, base);
    }
  }

  /** The miss button dispatches a valid throw. */
  lemma MissIsValid(g: GameType)
    ensures ValidThrow(g, 0, 0)
  {
  }

  /** The miss button is enabled exactly when a segment button at Single is, that is, whenever the match is not over. */
  lemma MissEnabledWithSingles(s: GameState, base: int)
    ensures MissEnabled(s) <==> ThrowEnabled(s, 1, base)
  {
  }

  /** The reducer takes a miss on every well-formed match, over or not; the miss button's guard is the panel's alone. */
  lemma MissDispatchable(s: GameState)
    requires WellFormed(s)
    ensures Dispatchable(s, AddScore(0, 0))
  {
    MissIsValid(s.gameType);
  }

  /** On a match in progress, a press of an enabled button is an action the reducer takes. */
  lemma PressDispatchable(s: GameState, m: Multiplier, base: int)
    requires WellFormed(s) && base in Buttons(s.gameType) && ThrowEnabled(s, m, base)
    ensures Dispatchable(s, AddScore(base * m, base))
    ensures Dispatchable(s, AddScore(0, 0))
  {
    PressIsValid(s, m, base);
    MissDispatchable(s);
  }

  /** Where every dart counted is a score kept, Undo and Next Player are enabled together. */
  lemma UndoWithNext(s: GameState)
    requires s.currentTurn.dartsThrown == |s.currentTurn.scores|
    ensures UndoEnabled(s) <==> NextEnabled(s)
  {
  }

  /** A disabled Undo guards a press the reducer would ignore anyway. */
  lemma DisabledUndoIsNoOp(s: GameState)
    requires UndoReadable(s) && !UndoEnabled(s)
    ensures Undo(s) == Ok(s)
  {
  }
}
