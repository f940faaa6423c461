/**
 * The game object: the match fields updated in place by the key-event
 * handler and the per-frame update, and the host loop that feeds them.
 * Each method is proved to move the fields exactly as the matching
 * function of module Match moves a match value, so every property proved
 * in MatchProps holds of the object too.
 */
module Game {
  import opened Wrappers
  import opened Grid
  import opened Match

  class PKGame {
    var state: GameState
    var round: int
    var playerScore: int
    var aiScore: int
    var playerResults: seq<Option<bool>>
    var aiResults: seq<Option<bool>>
    var selectedArea: GoalArea
    var aiSelectedArea: Option<GoalArea>
    var resultMessage: string
    var animationTimer: int
    var showSankakuTobi: bool
    var superSave: bool

    /** The fields as a match value. */
    function Snapshot(): MatchState
      reads this
    {
      MatchState(state, round, playerScore, aiScore, playerResults, aiResults,
                 selectedArea, aiSelectedArea, resultMessage, animationTimer,
                 showSankakuTobi, superSave)
    }

    ghost predicate Valid()
      reads this
    {
      Match.Valid(Snapshot())
    }

    /** A new game object starts in the menu of a new match. */
    constructor ()
      ensures Snapshot() == Fresh() && Valid()
    {
      new;
      ResetGame();
    }

    /** Puts every match field back to its value for a new match. */
    method ResetGame()
      modifies this
      ensures Snapshot() == Fresh() && Valid()
      ensures state == Menu && round == 1 && playerScore == 0 && aiScore == 0
      ensures playerResults == NoResults && aiResults == NoResults
      ensures selectedArea == MiddleCenter && aiSelectedArea == None && resultMessage == ""
      ensures animationTimer == 0 && !showSankakuTobi && !superSave
    {
      state := Menu;
      round := 1;
      playerScore := 0;
      aiScore := 0;
      playerResults := NoResults;
      aiResults := NoResults;
      selectedArea := MiddleCenter;
      aiSelectedArea := None;
      resultMessage := "";
      animationTimer := 0;
      showSankakuTobi := false;
      superSave := false;
    }

    /** Handles one host event; `pick` is the AI's area, drawn when SPACE confirms an aim. */
    method HandleEvent(e: Event, pick: GoalArea)
      modifies this
      ensures Snapshot() == Match.HandleEvent(old(Snapshot()), e, pick)
      ensures old(Valid()) ==> Valid()
    {
      if e.KeyDown? {
        if state == Menu {
          if e.key == Space {
            state := PlayerKicking;
          }
        } else if state == PlayerKicking {
          HandleKickingKey(e.key, pick);
        } else if state == PlayerGoalkeeping {
          HandleKeepingKey(e.key, pick);
        } else if state == Result {
          if e.key == Space {
            ResetGame();
          }
        }
      }
    }

    /** A key while aiming a kick: arrows steer, SPACE shoots against the drawn keeper. */
    method HandleKickingKey(key: Key, pick: GoalArea)
      requires state == PlayerKicking
      modifies this
      ensures Snapshot() == Match.HandleEvent(old(Snapshot()), KeyDown(key), pick)
    {
      if key.Arrow? {
        selectedArea := Move(selectedArea, key.dir);
      } else if key == Space {
        aiSelectedArea := Some(pick);
        state := AiGoalkeeping;
        animationTimer := 0;
      }
    }

    /** A key while choosing a dive: arrows steer, SPACE dives against the drawn kick. */
    method HandleKeepingKey(key: Key, pick: GoalArea)
      requires state == PlayerGoalkeeping
      modifies this
      ensures Snapshot() == Match.HandleEvent(old(Snapshot()), KeyDown(key), pick)
    {
      if key.Arrow? {
        selectedArea := Move(selectedArea, key.dir);
      } else if key == Space {
        aiSelectedArea := Some(pick);
        state := AiKicking;
        animationTimer := 0;
      }
    }

    /**
     * The per-frame update; `reflexTrial` is the 10% reflex-save trial.
     * Only the two kick animations do anything.
     */
    method Update(reflexTrial: bool)
      requires HasSlot(Snapshot())
      modifies this
      ensures Snapshot() == Match.Update(old(Snapshot()), reflexTrial)
      ensures old(Valid()) ==> Valid()
    {
      if Valid() {
        UpdateKeepsValid(Snapshot(), reflexTrial);
      }
      if state == AiGoalkeeping {
        UpdatePlayerKick(reflexTrial);
      } else if state == AiKicking {
        UpdateAiKick();
      }
    }

    /**
     * A frame of the player's kick: the reflex-save roll when the timer is
     * still 0, the timer, and once it passes 60 the result and the switch
     * to keeping goal.
     */
    method UpdatePlayerKick(reflexTrial: bool)
      requires state == AiGoalkeeping && 1 <= round <= |playerResults|
      modifies this
      ensures var rolled := if old(animationTimer) == 0 then Match.RollReflexSave(old(Snapshot()), reflexTrial)
                            else old(Snapshot());
        var ticked := rolled.(animationTimer := rolled.animationTimer + 1);
        Snapshot() == if ticked.animationTimer > AnimationFrames then ResolvePlayerKick(ticked) else ticked
    {
      if animationTimer == 0 {
        RollReflexSave(reflexTrial);
      }
      animationTimer := animationTimer + 1;
      if animationTimer > AnimationFrames {
        ApplyPlayerKickResult();
        animationTimer := 0;
        state := PlayerGoalkeeping;
        selectedArea := MiddleCenter;
      }
    }

    /**
     * A frame of the AI's kick: the timer, and once it passes 60 the result
     * and the next round. The trial this branch of the source draws is never
     * read, and its second roll is guarded by a timer of 0 inside a branch
     * where the timer exceeds 60, so neither appears here.
     */
    method UpdateAiKick()
      requires state == AiKicking && 1 <= round <= |aiResults|
      modifies this
      ensures var ticked := old(Snapshot()).(animationTimer := old(animationTimer) + 1);
        Snapshot() == if ticked.animationTimer > AnimationFrames then ResolveAiKick(ticked) else ticked
    {
      animationTimer := animationTimer + 1;
      if animationTimer > AnimationFrames {
        ApplyAiKickResult();
        AdvanceRound();
      }
    }

    /** After the AI's kick: the next round, or the result screen once five rounds are played. */
    method AdvanceRound()
      modifies this
      ensures Snapshot() == NextRound(old(Snapshot()))
    {
      animationTimer := 0;
      round := round + 1;
      if round > Rounds {
        resultMessage := "";
        state := Result;
      } else {
        state := PlayerKicking;
        selectedArea := MiddleCenter;
      }
    }

    /** The reflex-save roll on the first frame of the player's kick. */
    method RollReflexSave(reflexTrial: bool)
      modifies this
      ensures Snapshot() == Match.RollReflexSave(old(Snapshot()), reflexTrial)
    {
      superSave := reflexTrial;
      if superSave && Some(selectedArea) != aiSelectedArea {
        aiSelectedArea := Some(selectedArea);
        showSankakuTobi := true;
      } else {
        showSankakuTobi := false;
      }
    }

    /** Records the player's kick against the AI keeper and sets the message. */
    method ApplyPlayerKickResult()
      requires 1 <= round <= |playerResults|
      modifies this
      ensures Snapshot() == RecordPlayerKick(old(Snapshot()))
    {
      if superSave && showSankakuTobi {
        resultMessage := "SAVED!";
        playerResults := playerResults[round - 1 := Some(false)];
      } else if Some(selectedArea) == aiSelectedArea {
        resultMessage := "SAVED!";
        playerResults := playerResults[round - 1 := Some(false)];
      } else {
        playerScore := playerScore + 1;
        resultMessage := "GOAL!";
        playerResults := playerResults[round - 1 := Some(true)];
      }
    }

    /** Records the AI's kick against the player keeper and sets the message. */
    method ApplyAiKickResult()
      requires 1 <= round <= |aiResults|
      modifies this
      ensures Snapshot() == RecordAiKick(old(Snapshot()))
    {
      if superSave && showSankakuTobi {
        resultMessage := "NICE SAVE!";
        aiResults := aiResults[round - 1 := Some(false)];
      } else if Some(selectedArea) == aiSelectedArea {
        resultMessage := "NICE SAVE!";
        aiResults := aiResults[round - 1 := Some(false)];
      } else {
        aiScore := aiScore + 1;
        resultMessage := "GOAL CONCEDED!";
        aiResults := aiResults[round - 1 := Some(true)];
      }
    }

    /** One pass of the host loop: every event of the frame in order, then one update. */
    method RunFrame(frame: Frame)
      requires Valid()
      modifies this
      ensures Snapshot() == Step(old(Snapshot()), frame)
      ensures Valid()
    {
      var inputs := frame.inputs;
      for i := 0 to |inputs|
        invariant Snapshot() == ApplyEvents(old(Snapshot()), inputs[..i])
      {
        assert inputs[..i + 1][..i] == inputs[..i];
        HandleEvent(inputs[i].event, inputs[i].pick);
      }
      assert inputs[..|inputs|] == inputs;
      ApplyEventsKeepsValid(old(Snapshot()), inputs);
      Update(frame.reflexTrial);
    }

    /** The host loop over a finite sequence of frames. */
    method Run(frames: seq<Frame>)
      requires Valid()
      modifies this
      ensures Snapshot() == Match.Run(old(Snapshot()), frames)
      ensures Valid()
    {
      for i := 0 to |frames|
        invariant Valid()
        invariant Snapshot() == Match.Run(old(Snapshot()), frames[..i])
      {
        assert frames[..i + 1][..i] == frames[..i];
        RunFrame(frames[i]);
      }
      assert frames[..|frames|] == frames;
    }
  }
}
