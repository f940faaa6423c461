# PK game match model

A Dafny model of the game logic of a pygame penalty-shootout game. A human
player and a computer opponent each take five penalties over a 3x3 goal grid.
Each round has two halves:

- The player aims a kick with the arrow keys and shoots with SPACE; when the
  player shoots, the AI keeper's dive is drawn at random.
- The player picks a dive and confirms it with SPACE; the AI's kick is then
  drawn at random.

Each kick plays a 60-frame animation before it is resolved. The player's kick
may be stopped by a 10% "reflex save" (the *sankaku tobi*), which moves the
keeper onto the kicker's area. After five rounds the result screen gives the
verdict, and SPACE starts a new match.

The project is in layers:

- `wrappers.dfy` (`Wrappers`): the `Option` type, used for result slots and
  the AI's area.
- `grid.dfy` (`Grid`): the `GoalArea` enum with its values 0..8, and the
  edge-clamped arrow navigation.
- `match.dfy` (`Match`): the game fields as a value `MatchState`, the
  `GameState` enum, and the match invariant `Valid`. It also holds the pure
  transition functions:
  - `Fresh` for `reset_game`;
  - `HandleEvent` for `handle_event`;
  - `Update` for `update`;
  - `Step` and `Run` for the host loop: all of one frame's events, then one
    update.
- `pk_game.dfy` (`Game`): the game object, class `PKGame`, with the source's
  fields updated in place. Each method is proved to move the fields exactly as
  the matching `Match` function moves a `MatchState`. By that connection,
  everything proved in `MatchProps` holds of the object.
- `verdict.dfy` (`Verdict`): the result banner's text and colour.
- `match_props.dfy` (`MatchProps`): the properties. These cover, phase by
  phase, what every key does and when the reflex save is rolled. They cover how
  each kick is resolved, and how the animation holds resolution off for 60
  frames. Over whole runs of the host loop, they give the round and score
  bounds and the verdict.

Randomness is an input:

- `HandleEvent` takes `pick`, the area that `random.randint(0, 8)` drew when
  SPACE confirms an aim.
- `Update` takes `reflexTrial`, the outcome of `random.random() < 0.1`.
- A `Frame`'s events each carry their `pick`, and the frame carries its
  update's `reflexTrial`.

The model follows the code as written, including these points:

- The reflex save is rolled on the first update of the player's kick
  (timer 0), not when SPACE is pressed.
- The AI's kick rolls nothing. Its outcome reads the `super_save` and
  `show_sankaku_tobi` flags left over from the player's kick in the same round.
  A reflex save that fired on the player's kick therefore also saves the AI's
  kick wherever it goes (`AiKickResolution`).
- SPACE in the menu only changes the state.
- The round counter is 6 on the result screen.
- `reset_game` reassigns every field, including the flags.

## Model

| member | source | states |
|---|---|---|
| Grid.Value | pk_game.py:38-47 | every area's enum value lies in 0..8 |
| Grid.FromValue | pk_game.py:38-47 | the enum lookup `GoalArea(v)` on 0..8 returns the area whose value is `v` |
| Grid.Move | pk_game.py:112-131 | an arrow key moves the aim one row or column in its direction, clamped to the grid: new row and column are the old ones plus the step, kept within 0..2 |
| Grid.MoveStaysExactlyAtEdge | pk_game.py:112-131 | an arrow leaves the aim where it is if and only if the aim is already at that edge of the grid |
| Grid.MoveValue | pk_game.py:112-131 | away from the edge, up and down change the enum value by -3 and +3, and left and right by -1 and +1; at the edge the value is unchanged |
| Grid.CoordinatesDetermineArea | pk_game.py:38-47 | two areas with the same row and column are the same area |
| Match.GoalsRecord | pk_game.py:190-201 | recording a kick in an empty slot adds one goal exactly when the kick scored |
| Match.GoalsNone | pk_game.py:74-75 | a list of empty slots counts no goal |
| Match.Fresh | pk_game.py:69-81 | the state `reset_game` builds satisfies the match invariant |
| Match.HandleEvent | pk_game.py:104-168 | every event keeps the match invariant and the round, except SPACE on the result screen, which yields a new match |
| Match.RollReflexSave | pk_game.py:173-182 | the trial is stored; the keeper is moved onto the kicker's area and the announcement raised exactly when the trial succeeds and the two areas differ, otherwise the announcement is lowered; nothing else changes |
| Match.PlayerKickResolved | pk_game.py:184-206 | resolving the player's kick keeps the invariant. It is saved (slot false, "SAVED!", score kept) exactly when the keeper's area equals the aim, else a goal (slot true, "GOAL!", score + 1). Then the player keeps goal, timer 0, aim centred, other fields kept. |
| Match.AiKickResolved | pk_game.py:226-253 | resolving the AI's kick keeps the invariant. It is saved when both flags are set or the areas are equal ("NICE SAVE!", slot false), else a goal ("GOAL CONCEDED!", slot true, AI score + 1). The round advances: after round 5 comes the result screen with the message cleared, else the next kick with the aim centred. |
| Match.RecordPlayerKick | pk_game.py:187-201 | the player's kick scores exactly when neither the announced reflex save nor equal areas stop it; the round's slot records that, the score rises by one exactly on a goal, the message is "GOAL!" or "SAVED!", and nothing else changes |
| Match.ToKeeping | pk_game.py:204-206 | after the player's kick the player keeps goal, timer 0, aim centred, with round, results, scores and message kept |
| Match.ResolvePlayerKick | pk_game.py:186-206 | resolving the player's kick fills its round's slot with whether it scored, adds the goal to the score, and hands the player the gloves, with the round and the AI's record kept |
| Match.RecordAiKick | pk_game.py:228-242 | the AI's kick scores exactly when neither both flags nor equal areas stop it; the round's slot records that, the AI score rises by one exactly on a goal, the message is "GOAL CONCEDED!" or "NICE SAVE!", and nothing else changes |
| Match.NextRound | pk_game.py:244-253 | the round advances by one and the timer restarts; the result screen, with the message cleared, comes exactly when round 5 was played, otherwise the next kick with the aim centred; results and scores are kept |
| Match.ResolveAiKick | pk_game.py:226-253 | resolving the AI's kick fills its round's slot with whether it scored, adds the goal to the AI score, advances the round, and reaches the result screen exactly after round 5 |
| Match.ApplyEvents | pk_game.py:87-90 | a frame's events, handled in order, never reach the result screen from another phase and then keep the round; the round changes only from the result screen, where SPACE restarts the match at round 1 |
| Match.Update | pk_game.py:170-253 | an update changes the round only in the AI's kick, and then by one |
| Match.UpdateKeepsValid | pk_game.py:170-253 | every update keeps the match invariant |
| Match.ApplyEventsKeepsValid | pk_game.py:87-90 | handling any sequence of events keeps the match invariant |
| Match.Step | pk_game.py:85-93 | one pass of the host loop (all events, then one update) keeps the match invariant |
| Match.Run | pk_game.py:83-102 | any number of passes of the host loop keep the match invariant |
| Verdict.ResultText | pk_game.py:1183-1210 | the banner says "YOU WIN!", "AI WINS!" or "DRAW" exactly when the player's score is greater than, less than or equal to the AI's |
| Verdict.BannerColour | pk_game.py:1171-1176 | the banner is blue, red or yellow exactly when the player's score is greater than, less than or equal to the AI's |
| MatchProps.FreshMatch | pk_game.py:69-81 | a new match is in the menu, round 1, with no score and ten empty slots, aim centred, no AI area, no message, timer 0 and both flags off |
| MatchProps.RestartFromResult | pk_game.py:166-168 | on the result screen SPACE gives exactly a new match, and every other event leaves the state unchanged |
| MatchProps.IgnoredEvents | pk_game.py:104-105 | events other than key presses, and every key during a kick animation, change nothing |
| MatchProps.MenuStartsOnSpace | pk_game.py:106-108 | in the menu SPACE moves to the player's kick and changes nothing else; every other event changes nothing |
| MatchProps.AimNavigation | pk_game.py:110-159 | while kicking or keeping, an arrow replaces the aim by its grid move and changes nothing else |
| MatchProps.ConfirmKick | pk_game.py:132-136 | SPACE while aiming stores the drawn keeper area, restarts the timer and starts the player's kick; nothing else changes |
| MatchProps.ConfirmDive | pk_game.py:160-164 | SPACE while keeping stores the drawn kick area, restarts the timer and starts the AI's kick; nothing else changes |
| MatchProps.EventsKeepFlags | pk_game.py:104-165 | no event changes the reflex-save flags, except by starting a new match |
| MatchProps.EventsIgnoredDuringAnimation | pk_game.py:87-168 | no sequence of events changes anything while a kick is animating |
| MatchProps.UpdateOutsideAnimation | pk_game.py:170-208 | outside the two kick animations an update changes nothing, in any state |
| MatchProps.ReflexRollOnFirstFrame | pk_game.py:171-184 | the first update of the player's kick stores the trial, fires the save exactly when the trial succeeds and the areas differ (moving the keeper), and sets the timer to 1 |
| MatchProps.NoRollAfterFirstFrame | pk_game.py:208-224 | every other update, in particular during the AI's kick, does not depend on the trial and keeps both flags |
| MatchProps.AnimationTick | pk_game.py:184-210 | after the first update of the player's kick (the one that rolls the reflex save), and throughout the AI's kick, an update before the timer passes 60 only adds one to the timer |
| MatchProps.PlayerKickResolution | pk_game.py:184-206 | the update that takes the player's kick past 60 frames records a save exactly when the areas are equal, else a goal, and hands the player the gloves with the aim centred |
| MatchProps.AiKickResolution | pk_game.py:209-253 | the update that takes the AI's kick past 60 frames decides it by the carried-over flags or the areas, records it, advances the round, and ends the match after round 5 |
| MatchProps.RoundProgress | pk_game.py:244-246 | an update advances the round by one exactly when it resolves the AI's kick, and otherwise leaves it alone |
| MatchProps.RunAppend | pk_game.py:83-102 | running two stretches of frames in turn is the same as running them together |
| MatchProps.AnimationGate | pk_game.py:184-210 | once the roll is done, any frames before the timer reaches 60 only count up the timer, whatever events they hold |
| MatchProps.FirstFrames | pk_game.py:171-210 | the first n <= 60 frames of a kick are its first update, then n - 1 frames that only count |
| MatchProps.FirstFrame | pk_game.py:171-185 | the first frame of a kick animation is its first update, whatever events it holds; the phase is kept and the timer stands at 1 |
| MatchProps.KickRunSplit | pk_game.py:83-253 | a whole 61-frame kick animation is its first update, then frames that only count, then the resolving update |
| MatchProps.PlayerKickPending | pk_game.py:184-185 | for its first 60 frames the player's kick stays unresolved |
| MatchProps.PlayerKickRun | pk_game.py:170-206 | the 61 frames of the player's kick come to its first update (the roll), then one resolution of the kick, whatever the later frames hold; the state before resolving satisfies the invariant |
| MatchProps.PlayerKickFromConfirm | pk_game.py:132-206 | from SPACE, the player's kick is resolved on the 61st frame and not before. It is saved exactly when the first frame's trial succeeded or the keeper had the aimed area. The flags record the trial and whether it moved the keeper. |
| MatchProps.AiKickRun | pk_game.py:83-102 | the 61 frames of the AI's kick come to resolving it once, whatever events and trials they hold |
| MatchProps.AiKickFromConfirm | pk_game.py:160-253 | from SPACE, the AI's kick is resolved on the 61st frame and not before. It is saved exactly when the carried-over flags are both set or the areas are equal. The round then advances: after round 5 to the result screen with the message cleared, else to the next kick with the aim centred and "NICE SAVE!" or "GOAL CONCEDED!" shown. |
| MatchProps.GoalsAtMost | pk_game.py:74-75 | a result list never counts more goals than its length |
| MatchProps.MatchBounds | pk_game.py:69-253 | over any run from a new match, the round stays in 1..6, each score equals the goals in its list, and neither exceeds 5 |
| MatchProps.FinalVerdict | pk_game.py:1171-1210 | on the result screen all ten slots are filled, and the banner shows a win, a loss or a draw exactly as the player's list holds more, fewer or as many goals as the AI's |
| Game.PKGame.constructor | pk_game.py:59-67 | a new game object holds a new match |
| Game.PKGame.ResetGame | pk_game.py:69-81 | every field is set to its new-match value |
| Game.PKGame.HandleEvent | pk_game.py:104-168 | the fields move exactly as `Match.HandleEvent` moves the match, and an object satisfying the invariant keeps it |
| Game.PKGame.HandleKickingKey | pk_game.py:110-136 | a key while aiming moves the fields as `Match.HandleEvent` does |
| Game.PKGame.HandleKeepingKey | pk_game.py:138-164 | a key while keeping moves the fields as `Match.HandleEvent` does |
| Game.PKGame.Update | pk_game.py:170-253 | the fields move exactly as `Match.Update` moves the match, and an object satisfying the invariant keeps it |
| Game.PKGame.UpdatePlayerKick | pk_game.py:171-206 | one frame of the player's kick: roll at timer 0, tick, and resolve past 60 |
| Game.PKGame.UpdateAiKick | pk_game.py:208-253 | one frame of the AI's kick: tick, then resolve and advance past 60 |
| Game.PKGame.RollReflexSave | pk_game.py:173-182 | the fields move as `Match.RollReflexSave` moves the match |
| Game.PKGame.ApplyPlayerKickResult | pk_game.py:187-201 | the round's slot, the score and the message are set as `Match.RecordPlayerKick` sets them |
| Game.PKGame.ApplyAiKickResult | pk_game.py:228-242 | the round's slot, the AI score and the message are set as `Match.RecordAiKick` sets them |
| Game.PKGame.AdvanceRound | pk_game.py:244-253 | the timer is reset and the round advanced, then either the result screen or the next kick |
| Game.PKGame.RunFrame | pk_game.py:87-93 | one pass of the host loop moves the fields as `Match.Step` does and keeps the invariant |
| Game.PKGame.Run | pk_game.py:83-102 | the host loop over any frames moves the fields as `Match.Run` does and keeps the invariant |

## Left out

- Drawing is left out: `draw` and every `draw_*` view, the colours, fonts,
  trophy and stars, and the screen and clock setup in `__init__`. None of it
  changes a match field. The verdict banner's text is kept as `Verdict.ResultText`,
  and its colour, which the same comparison picks, as `Verdict.BannerColour`.
- Frame pacing (`clock.tick(FPS)`) is left out: a frame is one pass of the loop.
- QUIT is left out: the `running` flag and `pygame.quit()` / `sys.exit()`.
  `Run` models any finite prefix of the loop. A QUIT event is an `OtherEvent`,
  which `handle_event` ignores.
- The random generator is left out: its draws are inputs (`pick`,
  `reflexTrial`), so every possible draw is covered.
- The `hasattr(self, 'super_save')` guards always hold, because `reset_game`
  sets the field, so they are not modelled.
- The AI's kick draws a local `super_save` (pk_game.py:212) that is never read,
  so it is not modelled.
- That branch's second reflex roll (pk_game.py:215-224) is not modelled. It
  needs a timer of 0 inside a branch where the timer exceeds 60, so it never
  runs.
- The inner `animation_timer > 60` test (pk_game.py:226) always holds there,
  so it is folded into its enclosing branch.
