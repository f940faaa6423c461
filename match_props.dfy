/**
 * Properties of the match model: what a new match looks like, what each
 * key does in each phase, when the reflex save is rolled, how each kick is
 * resolved, how the 60-frame animation gates resolution, and what holds
 * over any run of the host loop.
 */
module MatchProps {
  import opened Wrappers
  import opened Grid
  import opened Match
  import Verdict

  // ---------------------------------------------------------------- reset

  /** A new match: menu, round 1, no score, ten empty slots, aim centred, no AI area, no message, no flags. */
  lemma FreshMatch()
    ensures var s := Fresh();
      && s.state == Menu && s.round == 1 && s.playerScore == 0 && s.aiScore == 0
      && |s.playerResults| == Rounds && |s.aiResults| == Rounds
      && (forall k :: 0 <= k < Rounds ==> s.playerResults[k] == None && s.aiResults[k] == None)
      && s.selectedArea == MiddleCenter && s.aiSelectedArea == None && s.resultMessage == ""
      && s.animationTimer == 0 && !s.showSankakuTobi && !s.superSave
  {
  }

  /** SPACE on the result screen starts a new match; any other key leaves it. */
  lemma RestartFromResult(s: MatchState, e: Event, pick: GoalArea)
    requires s.state == Result
    ensures HandleEvent(s, e, pick) == if e == KeyDown(Space) then Fresh() else s
  {
  }

  // ---------------------------------------------------------------- input

  /** Events other than key presses, and every key during a kick animation, change nothing. */
  lemma IgnoredEvents(s: MatchState, e: Event, pick: GoalArea)
    requires !e.KeyDown? || InAnimation(s)
    ensures HandleEvent(s, e, pick) == s
  {
  }

  /** In the menu only SPACE acts, and it starts the player's first kick. */
  lemma MenuStartsOnSpace(s: MatchState, e: Event, pick: GoalArea)
    requires s.state == Menu
    ensures HandleEvent(s, e, pick) == if e == KeyDown(Space) then s.(state := PlayerKicking) else s
  {
  }

  /** Kicking and keeping steer the aim the same way, by the grid step, and change nothing else. */
  lemma AimNavigation(s: MatchState, d: Direction, pick: GoalArea)
    requires s.state == PlayerKicking || s.state == PlayerGoalkeeping
    ensures HandleEvent(s, KeyDown(Arrow(d)), pick) == s.(selectedArea := Move(s.selectedArea, d))
  {
  }

  /** SPACE while aiming a kick: the AI keeper's area is drawn, the timer restarts, the kick animates. */
  lemma ConfirmKick(s: MatchState, pick: GoalArea)
    requires s.state == PlayerKicking
    ensures HandleEvent(s, KeyDown(Space), pick)
         == s.(aiSelectedArea := Some(pick), state := AiGoalkeeping, animationTimer := 0)
  {
  }

  /** SPACE while choosing a dive: the AI kicker's area is drawn, the timer restarts, the kick animates. */
  lemma ConfirmDive(s: MatchState, pick: GoalArea)
    requires s.state == PlayerGoalkeeping
    ensures HandleEvent(s, KeyDown(Space), pick)
         == s.(aiSelectedArea := Some(pick), state := AiKicking, animationTimer := 0)
  {
  }

  /** The reflex-save flags are never touched by input, except by starting a new match. */
  lemma EventsKeepFlags(s: MatchState, e: Event, pick: GoalArea)
    requires s.state != Result
    ensures HandleEvent(s, e, pick).superSave == s.superSave
    ensures HandleEvent(s, e, pick).showSankakuTobi == s.showSankakuTobi
  {
  }

  /** During an animation no sequence of events changes anything. */
  lemma {:induction false} EventsIgnoredDuringAnimation(s: MatchState, inputs: seq<Input>)
    requires InAnimation(s)
    ensures ApplyEvents(s, inputs) == s
  {
    if inputs != [] {
      EventsIgnoredDuringAnimation(s, inputs[..|inputs| - 1]);
    }
  }

  // ---------------------------------------------------------------- update

  /** Outside the two kick animations an update changes nothing. */
  lemma UpdateOutsideAnimation(s: MatchState, t: bool)
    requires !InAnimation(s)
    ensures Update(s, t) == s
  {
  }

  /**
   * The reflex save of the player's kick is rolled on its first update: the
   * trial is stored; if it succeeds and the keeper chose another area, the
   * keeper is moved onto the kicker's area and the announcement flag is
   * raised, otherwise the flag is lowered; and the timer starts counting.
   */
  lemma ReflexRollOnFirstFrame(s: MatchState, t: bool)
    requires Valid(s) && s.state == AiGoalkeeping && s.animationTimer == 0
    ensures var fired := t && s.aiSelectedArea != Some(s.selectedArea);
      Update(s, t) == s.(superSave := t, showSankakuTobi := fired,
                         aiSelectedArea := if fired then Some(s.selectedArea) else s.aiSelectedArea,
                         animationTimer := 1)
  {
  }

  /**
   * No other update rolls: the trial is ignored and the flags are kept,
   * including during the AI's kick, which therefore sees the flags left by
   * the player's kick of the same round.
   */
  lemma NoRollAfterFirstFrame(s: MatchState, t: bool)
    requires Valid(s) && !(s.state == AiGoalkeeping && s.animationTimer == 0)
    ensures Update(s, t) == Update(s, !t)
    ensures Update(s, t).superSave == s.superSave && Update(s, t).showSankakuTobi == s.showSankakuTobi
  {
  }

  /** Before the timer passes 60 an update only counts a frame: nothing is resolved or recorded. */
  lemma AnimationTick(s: MatchState, t: bool)
    requires Valid(s) && InAnimation(s) && s.animationTimer < AnimationFrames
    requires s.state == AiKicking || s.animationTimer > 0
    ensures Update(s, t) == s.(animationTimer := s.animationTimer + 1)
  {
  }

  /**
   * The player's kick is resolved on the update that takes the timer past
   * 60: saved ("SAVED!", slot false, score kept) exactly when the keeper's
   * area equals the aim, otherwise a goal ("GOAL!", slot true, score + 1);
   * then the timer restarts and the player keeps goal with the aim centred.
   */
  lemma PlayerKickResolution(s: MatchState, t: bool)
    requires Valid(s) && s.state == AiGoalkeeping && s.animationTimer == AnimationFrames
    ensures var r := Update(s, t);
      && (s.aiSelectedArea == Some(s.selectedArea) ==>
            r.resultMessage == "SAVED!" && r.playerResults[s.round - 1] == Some(false)
            && r.playerScore == s.playerScore)
      && (s.aiSelectedArea != Some(s.selectedArea) ==>
            r.resultMessage == "GOAL!" && r.playerResults[s.round - 1] == Some(true)
            && r.playerScore == s.playerScore + 1)
      && r.state == PlayerGoalkeeping && r.animationTimer == 0 && r.selectedArea == MiddleCenter
      && r.round == s.round && r.aiScore == s.aiScore
  {
  }

  /**
   * The AI's kick is resolved on the update that takes the timer past 60,
   * with no roll of its own: when the flags left by the player's kick are
   * both set it is saved wherever the areas are; otherwise it is saved
   * exactly when the areas are equal, and a goal for the AI otherwise.
   * Then the round advances and the match goes to the result screen (with
   * the message cleared) after round 5, else to the next kick, aim centred.
   */
  lemma AiKickResolution(s: MatchState, t: bool)
    requires Valid(s) && s.state == AiKicking && s.animationTimer == AnimationFrames
    ensures var r := Update(s, t);
      var saved := (s.superSave && s.showSankakuTobi) || s.aiSelectedArea == Some(s.selectedArea);
      && (saved ==> r.aiResults[s.round - 1] == Some(false) && r.aiScore == s.aiScore)
      && (!saved ==> r.aiResults[s.round - 1] == Some(true) && r.aiScore == s.aiScore + 1)
      && r.round == s.round + 1 && r.animationTimer == 0 && r.playerScore == s.playerScore
      && (s.round + 1 > Rounds ==> r.state == Result && r.resultMessage == "")
      && (s.round + 1 <= Rounds ==>
            r.state == PlayerKicking && r.selectedArea == MiddleCenter
            && r.resultMessage == if saved then "NICE SAVE!" else "GOAL CONCEDED!")
  {
  }

  /** The round advances by one exactly when the AI's kick is resolved, and otherwise not at all. */
  lemma RoundProgress(s: MatchState, t: bool)
    requires Valid(s)
    ensures Update(s, t).round == s.round + (if s.state == AiKicking && s.animationTimer == AnimationFrames then 1 else 0)
  {
  }

  // ---------------------------------------------------------------- the host loop

  /** Running two stretches of frames one after the other is running them together. */
  lemma {:induction false} RunAppend(s: MatchState, a: seq<Frame>, b: seq<Frame>)
    requires Valid(s)
    ensures Run(s, a + b) == Run(Run(s, a), b)
  {
    if b == [] {
      assert a + b == a;
    } else {
      assert (a + b)[..|a + b| - 1] == a + b[..|b| - 1];
      RunAppend(s, a, b[..|b| - 1]);
    }
  }

  /**
   * The animation gate: once the roll is behind it, a kick animation only
   * counts frames, whatever the frames hold, until the timer reaches 60.
   */
  lemma {:induction false} AnimationGate(s: MatchState, frames: seq<Frame>)
    requires Valid(s) && InAnimation(s) && s.animationTimer + |frames| <= AnimationFrames
    requires s.state == AiKicking || s.animationTimer > 0
    ensures Run(s, frames) == s.(animationTimer := s.animationTimer + |frames|)
  {
    if frames != [] {
      var prefix := frames[..|frames| - 1];
      AnimationGate(s, prefix);
      var mid := Run(s, prefix);
      EventsIgnoredDuringAnimation(mid, frames[|frames| - 1].inputs);
      AnimationTick(mid, frames[|frames| - 1].reflexTrial);
    }
  }

  /**
   * The first `n` frames of a kick animation, for n up to 60: the first
   * update (which, for the player's kick, rolls the reflex save), then `n - 1`
   * frames that only count.
   */
  lemma FirstFrames(s: MatchState, frames: seq<Frame>, n: nat)
    requires Valid(s) && InAnimation(s) && s.animationTimer == 0
    requires 1 <= n <= |frames| && n <= AnimationFrames
    ensures Run(s, frames[..n]) == Update(s, frames[0].reflexTrial).(animationTimer := n)
  {
    var first := frames[..1];
    FirstFrame(s, first);
    assert frames[..n] == first + frames[1..n];
    RunAppend(s, first, frames[1..n]);
    AnimationGate(Update(s, frames[0].reflexTrial), frames[1..n]);
  }

  /** The first frame of a kick animation is its first update; the timer then stands at 1. */
  lemma FirstFrame(s: MatchState, first: seq<Frame>)
    requires Valid(s) && InAnimation(s) && s.animationTimer == 0 && |first| == 1
    ensures var rolled := Update(s, first[0].reflexTrial);
      && Run(s, first) == rolled
      && rolled.state == s.state && rolled.animationTimer == 1
  {
    assert first[..0] == [];
    EventsIgnoredDuringAnimation(s, first[0].inputs);
    if s.state == AiGoalkeeping {
      ReflexRollOnFirstFrame(s, first[0].reflexTrial);
    } else {
      AnimationTick(s, first[0].reflexTrial);
    }
  }

  /** A whole kick animation is its first update, 59 counted frames, and the resolving update. */
  lemma KickRunSplit(s: MatchState, frames: seq<Frame>)
    requires Valid(s) && InAnimation(s) && s.animationTimer == 0
    requires |frames| == AnimationFrames + 1
    ensures Valid(Update(s, frames[0].reflexTrial).(animationTimer := AnimationFrames))
    ensures Run(s, frames)
         == Update(Update(s, frames[0].reflexTrial).(animationTimer := AnimationFrames),
                   frames[AnimationFrames].reflexTrial)
  {
    FirstFrames(s, frames, AnimationFrames);
    var ready := Run(s, frames[..AnimationFrames]);
    assert frames[..|frames| - 1] == frames[..AnimationFrames];
    EventsIgnoredDuringAnimation(ready, frames[AnimationFrames].inputs);
  }

  /** For its first 60 frames the player's kick is still being animated. */
  lemma PlayerKickPending(s: MatchState, frames: seq<Frame>, n: nat)
    requires Valid(s) && s.state == AiGoalkeeping && s.animationTimer == 0
    requires n <= |frames| && n <= AnimationFrames
    ensures Run(s, frames[..n]).state == AiGoalkeeping
  {
    if n == 0 {
      assert frames[..n] == [];
    } else {
      FirstFrames(s, frames, n);
      ReflexRollOnFirstFrame(s, frames[0].reflexTrial);
    }
  }

  /**
   * The player's kick from confirm to resolution: it is resolved on the
   * 61st frame, and not before; it is saved exactly when the first frame's
   * reflex trial succeeded or the AI keeper had chosen the aimed area; the
   * flags it leaves record whether the trial succeeded and whether it moved
   * the keeper; and the player then keeps goal.
   */
  lemma PlayerKickFromConfirm(s: MatchState, frames: seq<Frame>)
    requires Valid(s) && s.state == AiGoalkeeping && s.animationTimer == 0
    requires |frames| == AnimationFrames + 1
    ensures forall n :: 0 <= n <= AnimationFrames ==> Run(s, frames[..n]).state == AiGoalkeeping
    ensures var r := Run(s, frames);
      var trial := frames[0].reflexTrial;
      var saved := trial || s.aiSelectedArea == Some(s.selectedArea);
      && r.state == PlayerGoalkeeping && r.animationTimer == 0 && r.selectedArea == MiddleCenter
      && r.playerResults == s.playerResults[s.round - 1 := Some(!saved)]
      && r.playerScore == s.playerScore + (if saved then 0 else 1)
      && r.resultMessage == (if saved then "SAVED!" else "GOAL!")
      && r.superSave == trial
      && r.showSankakuTobi == (trial && s.aiSelectedArea != Some(s.selectedArea))
      && r.round == s.round && r.aiResults == s.aiResults
  {
    var trial := frames[0].reflexTrial;
    ReflexRollOnFirstFrame(s, trial);
    forall n | 0 <= n <= AnimationFrames
      ensures Run(s, frames[..n]).state == AiGoalkeeping
    {
      PlayerKickPending(s, frames, n);
    }
    PlayerKickRun(s, frames);
    PlayerKickResolved(Update(s, trial).(animationTimer := AnimationFrames + 1));
  }

  /**
   * The 61 frames of the player's kick amount to the first update (the
   * roll), then resolving the kick once, whatever the later frames hold.
   */
  lemma PlayerKickRun(s: MatchState, frames: seq<Frame>)
    requires Valid(s) && s.state == AiGoalkeeping && s.animationTimer == 0
    requires |frames| == AnimationFrames + 1
    ensures var ready := Update(s, frames[0].reflexTrial).(animationTimer := AnimationFrames);
      && Valid(ready)
      && Run(s, frames) == ResolvePlayerKick(ready.(animationTimer := AnimationFrames + 1))
  {
    KickRunSplit(s, frames);
    ReflexRollOnFirstFrame(s, frames[0].reflexTrial);
  }

  /** The 61 frames of the AI's kick amount to resolving it once, whatever they hold. */
  lemma AiKickRun(s: MatchState, frames: seq<Frame>)
    requires Valid(s) && s.state == AiKicking && s.animationTimer == 0
    requires |frames| == AnimationFrames + 1
    ensures Run(s, frames) == ResolveAiKick(s.(animationTimer := AnimationFrames + 1))
  {
    KickRunSplit(s, frames);
    AnimationTick(s, frames[0].reflexTrial);
    var ready := s.(animationTimer := AnimationFrames);
    assert Update(s, frames[0].reflexTrial).(animationTimer := AnimationFrames) == ready;
  }

  /**
   * The AI's kick from confirm to resolution: it is resolved on the 61st
   * frame, and not before, whatever the reflex trials of its frames; it is
   * saved exactly when the flags left by the player's kick are both set or
   * the areas are equal; then the round has advanced by one, to the result
   * screen (message cleared) after round 5, else to the next kick with the
   * aim centred and the kick's message shown.
   */
  lemma AiKickFromConfirm(s: MatchState, frames: seq<Frame>)
    requires Valid(s) && s.state == AiKicking && s.animationTimer == 0
    requires |frames| == AnimationFrames + 1
    ensures forall n :: 0 <= n <= AnimationFrames ==> Run(s, frames[..n]).state == AiKicking
    ensures var r := Run(s, frames);
      var saved := (s.superSave && s.showSankakuTobi) || s.aiSelectedArea == Some(s.selectedArea);
      && r.aiResults == s.aiResults[s.round - 1 := Some(!saved)]
      && r.aiScore == s.aiScore + (if saved then 0 else 1)
      && r.round == s.round + 1 && r.animationTimer == 0
      && r.state == (if s.round == Rounds then Result else PlayerKicking)
      && r.resultMessage == (if r.state == Result then "" else if saved then "NICE SAVE!" else "GOAL CONCEDED!")
      && (r.state == PlayerKicking ==> r.selectedArea == MiddleCenter)
      && r.playerResults == s.playerResults && r.playerScore == s.playerScore
  {
    forall n | 0 <= n <= AnimationFrames
      ensures Run(s, frames[..n]).state == AiKicking
    {
      AnimationGate(s, frames[..n]);
    }
    AiKickRun(s, frames);
    AiKickResolved(s.(animationTimer := AnimationFrames + 1));
  }

  // ---------------------------------------------------------------- the whole match

  /** A result list never counts more goals than it has slots. */
  lemma {:induction false} GoalsAtMost(rs: seq<Option<bool>>)
    ensures Goals(rs) <= |rs|
  {
    if rs != [] {
      GoalsAtMost(rs[..|rs| - 1]);
    }
  }

  /**
   * Over any run of the host loop from a new match the round never exceeds
   * 6, each score is the number of goals recorded in its list, and no
   * score exceeds 5.
   */
  lemma MatchBounds(frames: seq<Frame>)
    ensures var r := Run(Fresh(), frames);
      && 1 <= r.round <= Rounds + 1
      && r.playerScore == Goals(r.playerResults) && r.aiScore == Goals(r.aiResults)
      && r.playerScore <= Rounds && r.aiScore <= Rounds
  {
    var r := Run(Fresh(), frames);
    GoalsAtMost(r.playerResults);
    GoalsAtMost(r.aiResults);
  }

  /**
   * On the result screen all ten kicks are recorded, and the verdict is a
   * win, a loss or a draw exactly as the player's list holds more, fewer
   * or as many goals as the AI's.
   */
  lemma FinalVerdict(s: MatchState)
    requires Valid(s) && s.state == Result
    ensures forall k :: 0 <= k < Rounds ==> s.playerResults[k].Some? && s.aiResults[k].Some?
    ensures Verdict.ResultText(s.playerScore, s.aiScore) == "YOU WIN!" <==> Goals(s.playerResults) > Goals(s.aiResults)
    ensures Verdict.ResultText(s.playerScore, s.aiScore) == "AI WINS!" <==> Goals(s.playerResults) < Goals(s.aiResults)
    ensures Verdict.ResultText(s.playerScore, s.aiScore) == "DRAW" <==> Goals(s.playerResults) == Goals(s.aiResults)
  {
  }
}
