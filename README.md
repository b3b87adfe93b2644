# Darts scorer: the game-state reducer

This project models, in Dafny, the scoring core of a darts scorer web app.
The core has three parts:

- **The match state.** It is taken from `types/game.ts`. Here it is one `GameState` record covering both games. Its player entries are a sum type: an X01 player, or a Cricket player with a board of seven targets.
- **The reducer.** It is a pure function from a state and one of five actions to the next state. The actions are START_GAME, ADD_SCORE, UNDO_SCORE, NEXT_PLAYER and ADJUST_SCORE. ADD_SCORE has two paths: X01 (bust, finish, 3-dart rotation) and Cricket (marks, overflow points, the win test, the round limit). UNDO_SCORE decodes the last Cricket dart back into a target and a number of marks.
- **The score panel's button logic.** The panel keeps a selected multiplier, builds the ADD_SCORE action for a segment press or a miss, then resets the multiplier. Each button has an enable condition.

Modules:

- `GameTypes` (`game_types.dfy`): the datatypes of the match state.
- `GameContext` (`game_context.dfy`): the reducer `Reduce` (contexts/GameContext.tsx:28-325) and its parts.
  - The branch functions, each with the lines of contexts/GameContext.tsx it models:
    - `Start`: START_GAME (30-96);
    - `AddX01`: ADD_SCORE on X01, after the routing of Cricket darts (99-211);
    - `AddCricket`: `handleCricketScore` (328-477);
    - `Next`: NEXT_PLAYER (214-241);
    - `Undo`: UNDO_SCORE (243-309);
    - `Adjust`: ADJUST_SCORE (311-320).
  - Helpers that mirror the source's `.map`, `.find` and `.findIndex` calls.
  - The undo decoder `UndoDecode` (248-250).
  - The invariant `WellFormed` that started matches keep.
  - Each branch function requires the fields it reads to be there, given as `TurnReadable`, `CricketReadable` and `UndoReadable`. Two of these ask for more than the source reads; they are listed under "Left out".
- `Invariants` (`invariants.dfy`): every action keeps `WellFormed`, and START_GAME establishes it.
- `X01Rules`, `CricketRules` and `TurnRules`: the rules of each action, one lemma per promise.
- `ScoreInput` (`score_input.dfy`): the panel as a class `Panel` with a mutable `multiplier` field.
  - Its methods return the action they dispatch.
  - Predicates give the enable condition of each button.
  - Lemmas tie presses to the throws the reducer accepts.

The reducer returns `Result<GameState>`. The only error is `MissingTarget`. It stands for the exception that Cricket undo raises when the last dart decodes to a key the board does not have: a miss, treble 15 and treble 16.

The model follows the code as written, including behaviour a darts player would not expect:

- The X01 game-over guard does not cover Cricket.
- NEXT_PLAYER reopens a finished X01 match. It also reopens a won Cricket match unless the next round is past the round limit (always, when no limit is set).
- A won Cricket match is not guarded either: the turn keeps taking darts, so `dartsThrown` can pass 3. After an undo, a third dart that does not win reopens the match unless the next round is past the limit, because `gameOver` is recomputed from the round limit.
- START_GAME carries the old `winnerId` over.
- Cricket undo has no floor, so marks can go negative. Its overflow-reversal branch never fires.

## Model

| member | source | states |
|---|---|---|
| GameTypes.NewBoard | contexts/GameContext.tsx:66-74 | all seven targets start at no marks and open |
| GameContext.FindIndexCurrent | contexts/GameContext.tsx:131 | the result is the first flagged index, and -1 exactly when no player is flagged |
| GameContext.IndexOfId | contexts/GameContext.tsx:109 | the result is the first index carrying the id |
| GameContext.AddKey | contexts/GameContext.tsx:357-361 | a base names a key exactly when it is 15-20, 25 or 50; each of 15-20 names its own number's key, and 25 and 50 name the bull |
| GameContext.EveryAtLeast | contexts/GameContext.tsx:411 | true exactly when every other player's score is at least the given one |
| GameContext.IsNumberClosedByOthers | contexts/GameContext.tsx:480-488 | true exactly when every player with another id has closed the key |
| GameContext.TargetOfBase | contexts/GameContext.tsx:250 | a decoded base names a key exactly when it is 15-20 or 25, and that key is the base's own number (25 the bull) |
| Invariants.StartWellFormed | contexts/GameContext.tsx:30-96 | a roster of two or more distinct players gives a well-formed match, whatever the previous state |
| Invariants.AddX01WellFormed | contexts/GameContext.tsx:104-211 | an X01 dart keeps the match well-formed |
| Invariants.AddCricketWellFormed | contexts/GameContext.tsx:328-477 | a Cricket dart keeps the match well-formed: marks never exceed 3 and `closed` means three marks |
| Invariants.NextWellFormed | contexts/GameContext.tsx:214-241 | NEXT_PLAYER keeps the match well-formed |
| Invariants.UndoWellFormed | contexts/GameContext.tsx:243-309 | an undo that succeeds keeps the match well-formed, with `dartsThrown` equal to the number of scores |
| Invariants.AdjustWellFormed | contexts/GameContext.tsx:311-320 | ADJUST_SCORE keeps the match well-formed |
| Invariants.ReducePreservesWellFormed | contexts/GameContext.tsx:28-325 | every dispatchable action maps a well-formed match to a well-formed one, and START_GAME maps any state to one; while the match is on, the turn's owner is flagged and has thrown fewer than 3 darts |
| X01Rules.DartRouted | contexts/GameContext.tsx:99-104 | ADD_SCORE routes Cricket darts to the Cricket rules before the X01 game-over guard |
| X01Rules.GameOverIgnoresDart | contexts/GameContext.tsx:104 | an X01 dart on a finished match changes nothing |
| X01Rules.X01Stats | contexts/GameContext.tsx:119-125 | every X01 dart past the guard records the same statistics, whichever branch it takes |
| X01Rules.DartCounted | contexts/GameContext.tsx:119-125 | the thrower's total grows by the score and darts by one, with no `targetsHit`; other entries stay |
| X01Rules.FinishIff | contexts/GameContext.tsx:128-174 | the match ends exactly when the dart reaches zero and, under double-out, base × 2 equals the score |
| X01Rules.RotatesIff | contexts/GameContext.tsx:128-196 | the turn passes exactly on a bust, or on a third dart that does not finish |
| X01Rules.Bust | contexts/GameContext.tsx:112-150 | on a bust the thrower returns to the turn-start score, the turn is logged, the next player is up and round, game-over and winner stay; settings, game type and round limit stay |
| X01Rules.Finish | contexts/GameContext.tsx:153-174 | reaching zero ends the match: the thrower wins at 0, no one is flagged, and the turn is kept and logged; round, settings and game type stay |
| X01Rules.Rotate | contexts/GameContext.tsx:177-196 | the third dart logs the turn and passes it on without counting a round; settings and game type stay |
| X01Rules.PlainDart | contexts/GameContext.tsx:198-211 | any other dart takes the score and extends the turn; nothing is logged, and flags, round, game-over, winner and settings stay |
| X01Rules.DoubleOutBull | contexts/GameContext.tsx:128-130 | under double-out at 50, the 50 button busts while double 25 finishes |
| X01Rules.TurnStartAgrees | contexts/GameContext.tsx:112-114 | the reducer's turn-start score (the bare score before the first dart) equals the score plus the turn's darts whenever darts counted equal scores kept |
| X01Rules.PlainDartKeepsTurnStart | contexts/GameContext.tsx:112-114 | a plain dart leaves the turn-start score unchanged |
| X01Rules.Undo01 | contexts/GameContext.tsx:295-308 | X01 undo gives the last score back to the thrower and pops it; nothing else changes |
| X01Rules.UndoKeepsTurnStart | contexts/GameContext.tsx:295-308 | X01 undo leaves the turn-start score unchanged |
| X01Rules.UndoRevertsPlainDart | contexts/GameContext.tsx:243-308 | undoing a plain X01 dart restores the prior state, apart from statistics |
| CricketRules.KeysDistinct | contexts/GameContext.tsx:357-361 | two bases name the same key only when they are equal or both name the bull |
| CricketRules.KeyOfThrow | contexts/GameContext.tsx:357-361 | a valid Cricket dart names a key exactly when it is not a miss |
| CricketRules.MarksOfThrow | contexts/GameContext.tsx:340-342 | a scoring dart adds 1 to 3 marks, score / base except 2 for the 50 button; `targetsHit` grows by the same |
| CricketRules.DartCounted | contexts/GameContext.tsx:346-353 | total +score, darts +1, `targetsHit` + marks (overflow included; none for a miss), even after game over |
| CricketRules.MissScoresNothing | contexts/GameContext.tsx:356-357 | a miss changes no player |
| CricketRules.ThrowerMarks | contexts/GameContext.tsx:366-382 | the thrower's marks become min(old + m, 3), closed at 3; the score stays |
| CricketRules.OpponentPoints | contexts/GameContext.tsx:387-404 | each opponent keeps its board and gains base × max(0, old + m − 3) unless it has closed the key |
| CricketRules.ClosedByOthersNoPoints | contexts/GameContext.tsx:396-403 | when every opponent has closed the key, no score changes |
| CricketRules.BullOverflowByButton | contexts/GameContext.tsx:397 | on a closed bull, the 50 button gives an open opponent 100 points and double 25 gives 50 |
| CricketRules.DartScoring | contexts/GameContext.tsx:408-476 | the reducer's players are the scored players, apart from the turn flags |
| CricketRules.Win | contexts/GameContext.tsx:413-433 | a win ends the match before rotation: the thrower wins, no one is flagged, and the turn is kept and logged; round, settings and game type stay |
| CricketRules.WinIff | contexts/GameContext.tsx:408-413 | the win test holds exactly when the thrower has closed all seven keys and no score is lower |
| CricketRules.Rotate | contexts/GameContext.tsx:436-463 | the third dart counts a round exactly on wrap-around and ends the match exactly past the limit; it sets no winner (`winnerId` is left as it was); settings and game type stay |
| CricketRules.NoLimitNeverEnds | contexts/GameContext.tsx:446 | with no round limit the rotation never ends the match |
| CricketRules.PlainDart | contexts/GameContext.tsx:466-476 | any other dart extends the turn; flags, log, round, game-over, winner and settings stay |
| CricketRules.TurnGoesOn | contexts/GameContext.tsx:422-476 | before the third dart the turn stays with its owner and gains the dart |
| CricketRules.DecodeThrow | contexts/GameContext.tsx:248-250 | the decoder fails exactly on a miss, T15 and T16, and otherwise returns the dart's key, marks and base |
| CricketRules.UndoFails | contexts/GameContext.tsx:248-252 | undoing a miss, T15 or T16 fails with the missing key |
| CricketRules.UndoDart | contexts/GameContext.tsx:252-292 | the thrower's marks drop by the decoded marks with no floor; opponents are never touched; the dart is popped |
| CricketRules.UndoRevertsPlainDart | contexts/GameContext.tsx:243-292 | undoing a decodable dart that did not win, rotate or overflow restores the prior state, apart from statistics |
| CricketRules.NoOverflowDart | contexts/GameContext.tsx:366-405 | a dart before the third that neither wins nor overflows adds its marks to the thrower and leaves every other player unchanged |
| CricketRules.UndoTrebleTwenty | contexts/GameContext.tsx:252-254 | undoing a treble 20 takes three marks off 20, whatever the cap kept |
| CricketRules.TwoTrebles | contexts/GameContext.tsx:370 | two treble 20s from no marks leave three marks, because of the cap |
| CricketRules.NegativeMarksReachable | contexts/GameContext.tsx:254 | two treble 20s and two undos leave the thrower at −3 marks on 20 |
| TurnRules.StartSeatsRoster | contexts/GameContext.tsx:30-96 | only the first seat is up; scores are 501 (default) or 0 with an open board; stats zeroed; round 1; empty log |
| TurnRules.StartingScoreDefaults | contexts/GameContext.tsx:31-32 | the starting score falls back to 501 when it is zero or missing |
| TurnRules.StartForgetsAllButWinner | contexts/GameContext.tsx:42-60 | START_GAME ignores the old state except `winnerId`, which it carries over |
| TurnRules.NextIndexFollowsFlag | contexts/GameContext.tsx:131-132 | the next index follows the first flagged player, wrapping, and is 0 when none is flagged |
| TurnRules.NextSeatFollowsThrower | contexts/GameContext.tsx:131-132 | while the match is on, the thrower is flagged and the next seat is the thrower's seat + 1, wrapping |
| TurnRules.RotationAdvances | contexts/GameContext.tsx:178-185 | flagging exactly seat k makes k + 1 (wrapping) the next seat |
| TurnRules.NextRules | contexts/GameContext.tsx:214-241 | round +1 exactly on wrap-around; game over exactly when Cricket is past its limit; turn reset; nothing else changes |
| TurnRules.NextReopensX01 | contexts/GameContext.tsx:224-225 | on X01, NEXT_PLAYER clears `gameOver` and flags the next player |
| TurnRules.NextSteps | contexts/GameContext.tsx:215-216 | while the match goes on, NEXT_PLAYER moves one seat at a time |
| TurnRules.WrapsAtLastSeat | contexts/GameContext.tsx:219-221 | a round is counted exactly when play leaves the last seat |
| TurnRules.UndoEmptyTurn | contexts/GameContext.tsx:244 | undo with no dart in the turn returns the state unchanged |
| TurnRules.UndoKeepsBookkeeping | contexts/GameContext.tsx:243-309 | undo changes only players and turn: statistics, log, round, game-over and winner stay |
| TurnRules.AdjustSetsScore | contexts/GameContext.tsx:311-320 | ADJUST_SCORE sets the score of entries with the id and changes nothing else |
| TurnRules.AdjustLastWins | contexts/GameContext.tsx:311-320 | of two adjustments of one player, the later wins |
| TurnRules.AdjustCommutes | contexts/GameContext.tsx:311-320 | adjustments of two different players commute |
| TurnRules.AdjustNoOp | contexts/GameContext.tsx:311-320 | adjusting an unseated id, or to the current score, changes nothing |
| ScoreInput.Panel.constructor | components/game/ScoreInput.tsx:10 | the panel starts on Single |
| ScoreInput.Panel.Select | components/game/ScoreInput.tsx:36-53 | the selector buttons set the multiplier |
| ScoreInput.Panel.HandleScore | components/game/ScoreInput.tsx:13-17 | a segment press dispatches (base × multiplier, base) and re-selects Single |
| ScoreInput.Panel.HandleMiss | components/game/ScoreInput.tsx:19-21 | a miss dispatches (0, 0) and re-selects Single |
| ScoreInput.ButtonsOffered | components/game/ScoreInput.tsx:27-28 | Cricket offers exactly 15-20, 25 and 50; X01 offers exactly 1-20, 25 and 50 |
| ScoreInput.PressIsValid | components/game/ScoreInput.tsx:73 | an enabled segment press is a valid throw; 25 is valid at any multiplier |
| ScoreInput.OnlyFiftyIsBlocked | components/game/ScoreInput.tsx:165 | during a match, a segment button is disabled exactly when it is 50 with Double or Triple selected |
| ScoreInput.ValidThrowFromPanel | components/game/ScoreInput.tsx:13-24 | every valid throw is a miss or an enabled segment press at some multiplier |
| ScoreInput.MissIsValid | components/game/ScoreInput.tsx:19-20 | the miss is a valid throw in either game |
| ScoreInput.MissEnabledWithSingles | components/game/ScoreInput.tsx:73-99 | the miss button is enabled exactly when a segment button at Single is, that is, whenever the match is not over |
| ScoreInput.MissDispatchable | components/game/ScoreInput.tsx:98-99 | the reducer accepts a miss on every well-formed match, over or not; the miss button's guard is the panel's alone |
| ScoreInput.PressDispatchable | components/game/ScoreInput.tsx:61 | on a well-formed match, an enabled press or a miss is an action the reducer accepts |
| ScoreInput.UndoWithNext | components/game/ScoreInput.tsx:84-90 | when darts counted equal scores kept, Undo and Next Player are enabled together |
| ScoreInput.DisabledUndoIsNoOp | components/game/ScoreInput.tsx:177 | a disabled Undo guards only a press that would change nothing |

`types/game.ts` has no behaviour. Its types are the datatypes of `GameTypes`:

- `GameType` has two constructors (line 2).
- `X01Settings` has an optional `doubleOut` (lines 12-15).
- `RoundLimit` allows only 15 and 20 (lines 29-31).
- `Board` has a `Mark` for each of the seven targets (lines 33-44).
- `CurrentTurn` and `TurnRecord` model the turn (lines 51-59).
- `playerStats` is a map from id to `Stats` (lines 60-65).
- `PlayerState` is split by game type (lines 66-78).

`currentRound` is a field for both games, because the reducer writes it for both. `targetsHit` is an optional field of `Stats`, because only Cricket writes it.

## Left out

- `saveGameHistory`: asynchronous network persistence. It is called when a match ends (contexts/GameContext.tsx:172, 431). Only the returned state is modelled.
- `GameProvider` and `useGame` (contexts/GameContext.tsx:490-523): React context plumbing, with nothing to compute.
- Rendering and animation:
  - the panel's layout and button colours;
  - the miss animation and its two-second timer (`setShowMissAnimation`, `setTimeout`).

  These are display and clock effects. The panel model keeps only the multiplier and the actions.
- `photoUrl` and `createdAt` of a roster `Player`: the reducer copies them and never reads them.
- Per-dart averages: floating-point display arithmetic outside the reducer.
- Things the reducer does not have:
  - redemption, overtime and elimination: the first X01 player to reach zero legally wins at once;
  - a tie-break at the Cricket round limit: that end sets no winner.
- The reducer's `default` branch: the action type has exactly the five constructors, so that branch cannot be reached.
- GameContext.Undo: it requires `UndoReadable` on every undo, which asks for more than the source reads:
  - `dartsThrown` equal to the number of scores, and a readable owner, even on an empty turn, where the source reads nothing;
  - the owner's statistics entry, which no undo reads;
  - on X01, the owner seated, although the X01 undo only maps the players by id.

  Started matches always meet all of these (`Invariants.ReducePreservesWellFormed`).
- GameContext.AddCricket: it also requires a valid Cricket throw (`ValidThrow`), which only the score panel guarantees (`ScoreInput.PressIsValid`).
- GameContext.AddX01 and GameContext.AddCricket: they require the turn's owner to be seated with statistics, and a Cricket owner to have a board. On a Cricket dart, and on an X01 dart while the match is on, the source would throw a `TypeError` on other states. `AddX01` also requires this when the match is over, although the source then returns the state before reading anything. Started matches always meet these conditions (`Invariants.ReducePreservesWellFormed`).
- GameContext.MarksToAdd: JavaScript's `score / base` is modelled only on whole multiples. That is all a valid throw produces. Fractional marks from hand-built actions are not modelled.
- GameContext.UndoDecode: JavaScript's `lastScore / marksHit` is modelled as exact division or failure. The failing cases (miss, T15, T16) raise `MissingTarget` either way. The fractional value itself is not kept.
- GameContext.Dispatchable: actions are taken only from the score panel's valid throws and from rosters of two or more distinct players. The new-game page never starts a match otherwise.
- The statistics do not equal the darts in the log, in the source or in the model:
  - undo and a partial turn passed on by NEXT_PLAYER are not logged;
  - a winning turn is kept in both the current turn and the log.

  So no lemma relates them.
