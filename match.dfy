/**
 * The penalty-kick match as a value: the fields of the game object, the
 * invariant they keep, and one function per entry point of the game
 * (reset, key-event handling, the per-frame update) plus the frame loop
 * that drives them. Randomness enters as parameters: the AI's area for a
 * confirmed kick or dive, and the outcome of the 10% reflex-save trial.
 */
module Match {
  import opened Wrappers
  import opened Grid

  /** Number of rounds in a match; each round is one player kick and one AI kick. */
  const Rounds := 5

  /** Length of the kick animation in frames; the kick is resolved once the timer exceeds it. */
  const AnimationFrames := 60

  datatype GameState = Menu | PlayerKicking | AiGoalkeeping | AiKicking | PlayerGoalkeeping | Result

  /** The keys the game reacts to; every other key is `OtherKey`. */
  datatype Key = Arrow(dir: Direction) | Space | OtherKey

  /** A key press, or any other host event (quit request, key release, mouse, ...). */
  datatype Event = KeyDown(key: Key) | OtherEvent

  /** One event of a frame together with the AI's draw that a SPACE in an aiming phase consumes. */
  datatype Input = Input(event: Event, pick: GoalArea)

  /** One frame of the host loop: the events delivered, then one update with this reflex trial. */
  datatype Frame = Frame(inputs: seq<Input>, reflexTrial: bool)

  datatype MatchState = MatchState(
    state: GameState,
    round: int,
    playerScore: int,
    aiScore: int,
    playerResults: seq<Option<bool>>,  // true = scored, false = saved, None = not yet kicked
    aiResults: seq<Option<bool>>,
    selectedArea: GoalArea,            // the human's aim (as kicker) or dive (as keeper)
    aiSelectedArea: Option<GoalArea>,  // the AI's dive (as keeper) or aim (as kicker)
    resultMessage: string,
    animationTimer: int,
    showSankakuTobi: bool,             // the reflex save fired and moved the keeper
    superSave: bool                    // the reflex-save trial succeeded
  )

  /** Number of scored kicks recorded in a result list. */
  function Goals(rs: seq<Option<bool>>): nat
  {
    if rs == [] then 0 else Goals(rs[..|rs| - 1]) + (if rs[|rs| - 1] == Some(true) then 1 else 0)
  }

  /** Exactly the first `n` slots of `rs` are filled. */
  ghost predicate Filled(rs: seq<Option<bool>>, n: int)
  {
    forall k :: 0 <= k < |rs| ==> (rs[k].Some? <==> k < n)
  }

  predicate InAnimation(s: MatchState)
  {
    s.state == AiGoalkeeping || s.state == AiKicking
  }

  /** Number of player kicks already resolved: the current round's kick counts once its animation is over. */
  function PlayerKicksTaken(s: MatchState): int
  {
    if s.state == PlayerGoalkeeping || s.state == AiKicking then s.round else s.round - 1
  }

  /**
   * The match invariant. The round is 1..5 while playing and 6 on the
   * result screen; the slots of rounds already played are filled and the
   * others are empty; each score is the number of scored slots; the timer
   * runs 0..60 during an animation and is 0 otherwise; the AI has chosen
   * an area whenever a kick is animating; the announcement flag implies
   * the trial flag, and while the player's kick animates an announced
   * reflex save has put the keeper on the kicker's area.
   */
  ghost predicate Valid(s: MatchState)
  {
    && |s.playerResults| == Rounds
    && |s.aiResults| == Rounds
    && (if s.state == Result then s.round == Rounds + 1 else 1 <= s.round <= Rounds)
    && Filled(s.playerResults, PlayerKicksTaken(s))
    && Filled(s.aiResults, s.round - 1)
    && s.playerScore == Goals(s.playerResults)
    && s.aiScore == Goals(s.aiResults)
    && 0 <= s.animationTimer <= AnimationFrames
    && (!InAnimation(s) ==> s.animationTimer == 0)
    && (InAnimation(s) ==> s.aiSelectedArea.Some?)
    && (s.showSankakuTobi ==> s.superSave)
    && (s.state == AiGoalkeeping && s.animationTimer > 0 && s.showSankakuTobi ==>
          s.aiSelectedArea == Some(s.selectedArea))
  }

  /** Recording a kick in an empty slot adds one goal exactly when it scored. */
  lemma {:induction false} GoalsRecord(rs: seq<Option<bool>>, i: int, scored: bool)
    requires 0 <= i < |rs| && rs[i] == None
    ensures Goals(rs[i := Some(scored)]) == Goals(rs) + (if scored then 1 else 0)
  {
    var rs' := rs[i := Some(scored)];
    assert rs'[..|rs| - 1] == if i == |rs| - 1 then rs[..|rs| - 1] else rs[..|rs| - 1][i := Some(scored)];
    if i < |rs| - 1 {
      GoalsRecord(rs[..|rs| - 1], i, scored);
    }
  }

  /** A list of empty slots counts no goal. */
  lemma {:induction false} GoalsNone(rs: seq<Option<bool>>)
    requires forall k :: 0 <= k < |rs| ==> rs[k] == None
    ensures Goals(rs) == 0
  {
    if rs != [] {
      GoalsNone(rs[..|rs| - 1]);
    }
  }

  /** The five empty result slots of a new match. */
  const NoResults: seq<Option<bool>> := [None, None, None, None, None]

  /** The state `reset_game` builds: menu, round 1, no score, all slots empty, aim centred. */
  function Fresh(): (s: MatchState)
    ensures Valid(s)
  {
    GoalsNone(NoResults);
    MatchState(Menu, 1, 0, 0, NoResults, NoResults,
               MiddleCenter, None, "", 0, false, false)
  }

  /**
   * `handle_event`: only key presses act. MENU starts playing on SPACE. In
   * the two aiming phases the arrows move the aim and SPACE confirms: the
   * AI's area is drawn, the timer restarts and the matching animation
   * phase begins. RESULT starts over on SPACE. Nothing else changes anything.
   */
  function HandleEvent(s: MatchState, e: Event, pick: GoalArea): (r: MatchState)
    ensures Valid(s) ==> Valid(r)
    ensures r.round == s.round || (s.state == Result && r == Fresh())
  {
    if !e.KeyDown? then s
    else
      match s.state
      case Menu =>
        if e.key == Space then s.(state := PlayerKicking) else s
      case PlayerKicking =>
        if e.key.Arrow? then s.(selectedArea := Move(s.selectedArea, e.key.dir))
        else if e.key == Space then s.(aiSelectedArea := Some(pick), state := AiGoalkeeping, animationTimer := 0)
        else s
      case PlayerGoalkeeping =>
        if e.key.Arrow? then s.(selectedArea := Move(s.selectedArea, e.key.dir))
        else if e.key == Space then s.(aiSelectedArea := Some(pick), state := AiKicking, animationTimer := 0)
        else s
      case Result =>
        if e.key == Space then Fresh() else s
      case AiGoalkeeping => s
      case AiKicking => s
  }

  /**
   * The reflex-save roll made on the first update of the player's kick: the
   * trial is stored, and when it succeeds against a keeper who chose a
   * different area the keeper is moved onto the kicker's area and the
   * announcement flag is raised; otherwise the flag is lowered.
   */
  function RollReflexSave(s: MatchState, trial: bool): (r: MatchState)
    ensures r.superSave == trial
    ensures r.showSankakuTobi <==> trial && s.aiSelectedArea != Some(s.selectedArea)
    ensures r.aiSelectedArea == if r.showSankakuTobi then Some(s.selectedArea) else s.aiSelectedArea
    ensures r == s.(superSave := r.superSave, showSankakuTobi := r.showSankakuTobi, aiSelectedArea := r.aiSelectedArea)
  {
    if trial && Some(s.selectedArea) != s.aiSelectedArea then
      s.(superSave := trial, aiSelectedArea := Some(s.selectedArea), showSankakuTobi := true)
    else
      s.(superSave := trial, showSankakuTobi := false)
  }

  /** The end of the player's kick: record it against the AI keeper, then the player keeps goal. */
  function ResolvePlayerKick(s: MatchState): (r: MatchState)
    requires 1 <= s.round <= |s.playerResults|
    ensures var scored := !(s.superSave && s.showSankakuTobi) && Some(s.selectedArea) != s.aiSelectedArea;
      && r.playerResults == s.playerResults[s.round - 1 := Some(scored)]
      && r.playerScore == s.playerScore + (if scored then 1 else 0)
      && r.state == PlayerGoalkeeping && r.animationTimer == 0 && r.selectedArea == MiddleCenter
      && r.round == s.round && r.aiResults == s.aiResults && r.aiScore == s.aiScore
  {
    ToKeeping(RecordPlayerKick(s))
  }

  /** The recording step: the source branches on the reflex-save flags, then on the areas. */
  function RecordPlayerKick(s: MatchState): (r: MatchState)
    requires 1 <= s.round <= |s.playerResults|
    ensures var scored := !(s.superSave && s.showSankakuTobi) && Some(s.selectedArea) != s.aiSelectedArea;
      r == s.(playerResults := s.playerResults[s.round - 1 := Some(scored)],
              playerScore := s.playerScore + (if scored then 1 else 0),
              resultMessage := if scored then "GOAL!" else "SAVED!")
  {
    if s.superSave && s.showSankakuTobi then
      s.(resultMessage := "SAVED!", playerResults := s.playerResults[s.round - 1 := Some(false)])
    else if Some(s.selectedArea) == s.aiSelectedArea then
      s.(resultMessage := "SAVED!", playerResults := s.playerResults[s.round - 1 := Some(false)])
    else
      s.(playerScore := s.playerScore + 1, resultMessage := "GOAL!",
         playerResults := s.playerResults[s.round - 1 := Some(true)])
  }

  /** The step after the player's kick: the player keeps goal, aim centred. */
  function ToKeeping(s: MatchState): (r: MatchState)
    ensures r.state == PlayerGoalkeeping && r.animationTimer == 0 && r.selectedArea == MiddleCenter
    ensures r.round == s.round && r.resultMessage == s.resultMessage
    ensures r.playerResults == s.playerResults && r.aiResults == s.aiResults
    ensures r.playerScore == s.playerScore && r.aiScore == s.aiScore
  {
    s.(animationTimer := 0, state := PlayerGoalkeeping, selectedArea := MiddleCenter)
  }

  /**
   * The player's kick, resolved on the frame its timer passes 60, keeps the
   * invariant: it is recorded in its round's slot, and the player takes the
   * gloves with the aim re-centred. The reflex-save branch of the source
   * needs no case of its own: the roll has already put the keeper on the
   * kicker's area, so the kick is saved exactly when the two areas are equal.
   */
  lemma PlayerKickResolved(s: MatchState)
    requires s.state == AiGoalkeeping && s.animationTimer == AnimationFrames + 1
    requires Valid(s.(animationTimer := AnimationFrames))
    ensures var r := ResolvePlayerKick(s);
      var saved := s.aiSelectedArea == Some(s.selectedArea);
      && Valid(r)
      && r.playerResults == s.playerResults[s.round - 1 := Some(!saved)]
      && r.playerScore == s.playerScore + (if saved then 0 else 1)
      && r.resultMessage == (if saved then "SAVED!" else "GOAL!")
      && r.state == PlayerGoalkeeping && r.animationTimer == 0 && r.selectedArea == MiddleCenter
      && r.round == s.round && r.aiScore == s.aiScore && r.aiResults == s.aiResults
      && r.aiSelectedArea == s.aiSelectedArea
      && r.superSave == s.superSave && r.showSankakuTobi == s.showSankakuTobi
  {
    GoalsRecord(s.playerResults, s.round - 1, s.aiSelectedArea != Some(s.selectedArea));
  }

  /** The end of the AI's kick: record it against the player keeper, then the next round. */
  function ResolveAiKick(s: MatchState): (r: MatchState)
    requires 1 <= s.round <= |s.aiResults|
    ensures var scored := !(s.superSave && s.showSankakuTobi) && Some(s.selectedArea) != s.aiSelectedArea;
      && r.aiResults == s.aiResults[s.round - 1 := Some(scored)]
      && r.aiScore == s.aiScore + (if scored then 1 else 0)
      && r.round == s.round + 1 && r.animationTimer == 0
      && (r.state == Result <==> s.round >= Rounds)
      && r.playerResults == s.playerResults && r.playerScore == s.playerScore
  {
    NextRound(RecordAiKick(s))
  }

  /** The recording step: the source branches on the reflex-save flags, then on the areas. */
  function RecordAiKick(s: MatchState): (r: MatchState)
    requires 1 <= s.round <= |s.aiResults|
    ensures var scored := !(s.superSave && s.showSankakuTobi) && Some(s.selectedArea) != s.aiSelectedArea;
      r == s.(aiResults := s.aiResults[s.round - 1 := Some(scored)],
              aiScore := s.aiScore + (if scored then 1 else 0),
              resultMessage := if scored then "GOAL CONCEDED!" else "NICE SAVE!")
  {
    if s.superSave && s.showSankakuTobi then
      s.(resultMessage := "NICE SAVE!", aiResults := s.aiResults[s.round - 1 := Some(false)])
    else if Some(s.selectedArea) == s.aiSelectedArea then
      s.(resultMessage := "NICE SAVE!", aiResults := s.aiResults[s.round - 1 := Some(false)])
    else
      s.(aiScore := s.aiScore + 1, resultMessage := "GOAL CONCEDED!",
         aiResults := s.aiResults[s.round - 1 := Some(true)])
  }

  /** The step after the AI's kick: the next round, which after round 5 is the result screen. */
  function NextRound(s: MatchState): (r: MatchState)
    ensures r.round == s.round + 1 && r.animationTimer == 0
    ensures r.state == Result <==> s.round >= Rounds
    ensures r.state == Result ==> r.resultMessage == "" && r.selectedArea == s.selectedArea
    ensures r.state != Result ==>
      r.state == PlayerKicking && r.selectedArea == MiddleCenter && r.resultMessage == s.resultMessage
    ensures r.playerResults == s.playerResults && r.aiResults == s.aiResults
    ensures r.playerScore == s.playerScore && r.aiScore == s.aiScore
  {
    var next := s.(animationTimer := 0, round := s.round + 1);
    if next.round > Rounds then next.(resultMessage := "", state := Result)
    else next.(state := PlayerKicking, selectedArea := MiddleCenter)
  }

  /**
   * The AI's kick, resolved on the frame its timer passes 60, keeps the
   * invariant: it is recorded in its round's slot, then the round advances
   * and the match moves to the result screen after round 5, else to the
   * next player kick with the aim re-centred. No reflex save is rolled for
   * this kick: the flags still set from the player's kick of the same round
   * decide it, so a reflex save announced for the AI keeper also saves the
   * AI's kick, wherever the two areas are.
   */
  lemma AiKickResolved(s: MatchState)
    requires s.state == AiKicking && s.animationTimer == AnimationFrames + 1
    requires Valid(s.(animationTimer := AnimationFrames))
    ensures var r := ResolveAiKick(s);
      var saved := (s.superSave && s.showSankakuTobi) || s.aiSelectedArea == Some(s.selectedArea);
      && Valid(r)
      && r.aiResults == s.aiResults[s.round - 1 := Some(!saved)]
      && r.aiScore == s.aiScore + (if saved then 0 else 1)
      && r.resultMessage == (if r.state == Result then "" else if saved then "NICE SAVE!" else "GOAL CONCEDED!")
      && r.round == s.round + 1 && r.animationTimer == 0
      && r.state == (if s.round + 1 > Rounds then Result else PlayerKicking)
      && r.selectedArea == (if r.state == Result then s.selectedArea else MiddleCenter)
      && r.playerScore == s.playerScore && r.playerResults == s.playerResults
      && r.aiSelectedArea == s.aiSelectedArea
      && r.superSave == s.superSave && r.showSankakuTobi == s.showSankakuTobi
  {
    GoalsRecord(s.aiResults, s.round - 1,
                !(s.superSave && s.showSankakuTobi) && s.aiSelectedArea != Some(s.selectedArea));
  }

  /** The kick animated in the current phase has a slot in its result list. */
  predicate HasSlot(s: MatchState) {
    && (s.state == AiGoalkeeping ==> 1 <= s.round <= |s.playerResults|)
    && (s.state == AiKicking ==> 1 <= s.round <= |s.aiResults|)
  }

  /**
   * `update`, once per frame: during the player's kick it rolls the reflex
   * save on the first frame, then during either kick it advances the timer
   * and resolves the kick once the timer exceeds 60. The AI's kick rolls
   * nothing. Every other phase is left alone.
   */
  function Update(s: MatchState, reflexTrial: bool): (r: MatchState)
    requires HasSlot(s)
    ensures r.round == s.round || (s.state == AiKicking && r.round == s.round + 1)
  {
    match s.state
    case AiGoalkeeping =>
      var rolled := if s.animationTimer == 0 then RollReflexSave(s, reflexTrial) else s;
      var ticked := rolled.(animationTimer := rolled.animationTimer + 1);
      if ticked.animationTimer > AnimationFrames then ResolvePlayerKick(ticked)
      else ticked
    case AiKicking =>
      var ticked := s.(animationTimer := s.animationTimer + 1);
      if ticked.animationTimer > AnimationFrames then ResolveAiKick(ticked)
      else ticked
    case Menu => s
    case PlayerKicking => s
    case PlayerGoalkeeping => s
    case Result => s
  }

  /** Every update keeps the match invariant. */
  lemma UpdateKeepsValid(s: MatchState, reflexTrial: bool)
    requires Valid(s)
    ensures Valid(Update(s, reflexTrial))
  {
    if s.state == AiGoalkeeping {
      var rolled := if s.animationTimer == 0 then RollReflexSave(s, reflexTrial) else s;
      var ticked := rolled.(animationTimer := rolled.animationTimer + 1);
      if ticked.animationTimer > AnimationFrames {
        PlayerKickResolved(ticked);
      }
    } else if s.state == AiKicking {
      var ticked := s.(animationTimer := s.animationTimer + 1);
      if ticked.animationTimer > AnimationFrames {
        AiKickResolved(ticked);
      }
    }
  }

  /**
   * The events of one frame, handled in order. They keep the round, unless
   * SPACE on the result screen starts a new match at round 1.
   */
  function ApplyEvents(s: MatchState, inputs: seq<Input>): (r: MatchState)
    ensures s.state != Result ==> r.state != Result && r.round == s.round
    ensures r.round == s.round || (s.state == Result && r.round == 1)
  {
    if inputs == [] then s
    else
      var last := inputs[|inputs| - 1];
      HandleEvent(ApplyEvents(s, inputs[..|inputs| - 1]), last.event, last.pick)
  }

  /** Handling any sequence of events keeps the match invariant. */
  lemma {:induction false} ApplyEventsKeepsValid(s: MatchState, inputs: seq<Input>)
    requires Valid(s)
    ensures Valid(ApplyEvents(s, inputs))
  {
    if inputs != [] {
      ApplyEventsKeepsValid(s, inputs[..|inputs| - 1]);
    }
  }

  /** One frame of the host loop: its events, then one update. */
  function Step(s: MatchState, f: Frame): (r: MatchState)
    requires Valid(s)
    ensures Valid(r)
  {
    ApplyEventsKeepsValid(s, f.inputs);
    UpdateKeepsValid(ApplyEvents(s, f.inputs), f.reflexTrial);
    Update(ApplyEvents(s, f.inputs), f.reflexTrial)
  }

  /** The host loop over a sequence of frames. */
  function Run(s: MatchState, frames: seq<Frame>): (r: MatchState)
    requires Valid(s)
    ensures Valid(r)
  {
    if frames == [] then s
    else Step(Run(s, frames[..|frames| - 1]), frames[|frames| - 1])
  }
}
