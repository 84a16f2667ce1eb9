/** The state of the `PumpkinSeesawGame` component of
    components/pumpkin-game.tsx. The class `SeesawGame` holds the component's
    state variables as fields; its methods model the handlers and the two
    effects. The board part of the state is proved against the steps of module
    `Seesaw`, and its invariant follows from module `SeesawInvariant`. */
module PumpkinGame {
  import opened Wrappers
  import opened Randomness
  import opened Settings
  import opened Seesaw
  import opened SeesawInvariant

  class SeesawGame {
    var pumpkins: seq<PumpkinData>
    var seesawAngle: int
    var leftWeight: int
    var rightWeight: int
    var gameMessage: Message
    var showReward: bool
    var showResetPrompt: bool
    var isBalanced: bool
    var hasShownReward: bool
    var settings: GameSettings
    var leftSlots: seq<bool>
    var rightSlots: seq<bool>
    /** The 3-second timers scheduled by rewards that have not fired yet. */
    var pendingPromptTimers: nat

    /** The clicks made this round, and the boards they passed through. */
    ghost var clicks: seq<ClickInput>
    ghost var trace: seq<Board>
    /** Rewards shown since the last reset. */
    ghost var rewardsThisRound: nat

    /** The board fields as a value. */
    function CurrentBoard(): Board
      reads this`pumpkins, this`leftWeight, this`rightWeight, this`leftSlots, this`rightSlots
    {
      Board(pumpkins, leftWeight, rightWeight, leftSlots, rightSlots)
    }

    /** The board is the one this round's clicks lead to from a freshly generated round. */
    ghost predicate History()
      reads this`pumpkins, this`leftWeight, this`rightWeight, this`leftSlots, this`rightSlots,
            this`clicks, this`trace
    {
      && IsTrace(trace, clicks) && FreshRound(trace[0])
      && trace[|clicks|] == CurrentBoard() && CurrentBoard().SlotsSized()
    }

    /** The reward is shown only once it has fired, and it fires at most once a round. */
    ghost predicate RewardOk()
      reads this`showReward, this`hasShownReward, this`rewardsThisRound
    {
      && (showReward ==> hasShownReward)
      && rewardsThisRound == (if hasShownReward then 1 else 0)
    }

    ghost predicate Valid()
      reads this
    {
      IsValid(settings) && History() && RewardOk()
    }

    /** The effects have caught up with the weights: the angle is the tilt of the
        totals and `isBalanced` is the balance test of that angle. */
    ghost predicate Settled()
      reads this
    {
      seesawAngle == Tilt(leftWeight, rightWeight) && isBalanced == IsNowBalanced(seesawAngle, leftWeight, rightWeight)
    }

    /** In every state the game reaches, the board satisfies the invariant. */
    lemma BoardAlwaysValid()
      requires Valid()
      ensures BoardValid(CurrentBoard(), OverflowedBy(trace, clicks, |clicks|, Left),
                         OverflowedBy(trace, clicks, |clicks|, Right))
    {
      TraceValid(trace, clicks, |clicks|);
    }

    /** The state after mounting: default settings and a generated round. */
    constructor (rr: RoundRolls)
      requires RollsFit(DefaultSettings(), rr)
      ensures Valid() && Settled()
      ensures settings == DefaultSettings() && CurrentBoard() == Initial(Round(DefaultSettings(), rr))
      ensures seesawAngle == 0
      ensures !showReward && !showResetPrompt && !isBalanced && !hasShownReward && pendingPromptTimers == 0
      ensures gameMessage == NoMessage
    {
      var ps := GenerateRandomPumpkins(DefaultSettings(), rr);
      pumpkins := ps;
      settings := DefaultSettings();
      seesawAngle, leftWeight, rightWeight := 0, 0, 0;
      gameMessage := NoMessage;
      showReward, showResetPrompt, isBalanced, hasShownReward := false, false, false, false;
      leftSlots, rightSlots := NoSlots(), NoSlots();
      pendingPromptTimers := 0;
      rewardsThisRound := 0;
      clicks, trace := [], [Initial(ps)];
      new;
      assert IsValid(settings) && RollsFit(settings, rr) && trace[0] == Initial(Round(settings, rr));
    }

    /** `findNextAvailableSlot`: returns the lowest free slot of `side` and marks
        it, or, when all 8 are taken, returns the random slot `roll` picks and
        marks nothing. */
    method FindNextAvailableSlot(side: Side, roll: real) returns (slot: int)
      requires |leftSlots| == SlotCount && |rightSlots| == SlotCount && IsRandom(roll)
      modifies this`leftSlots, this`rightSlots
      ensures slot == NextSlot(old(CurrentBoard().Slots(side)), roll)
      ensures side == Left ==> leftSlots == SlotsAfterChoice(old(leftSlots), roll) && rightSlots == old(rightSlots)
      ensures side == Right ==> rightSlots == SlotsAfterChoice(old(rightSlots), roll) && leftSlots == old(leftSlots)
    {
      var slots := if side == Left then leftSlots else rightSlots;
      var index := LowestFree(slots);
      if index.Some? {
        var newSlots := slots[index.value := true];
        if side == Left {
          leftSlots := newSlots;
        } else {
          rightSlots := newSlots;
        }
        slot := index.value;
      } else {
        slot := RandomInt(roll, 0, |slots| - 1);
      }
    }

    /** The removal branch of `handlePumpkinClick` for the pumpkin at index `i`. */
    method RemoveFromSeesaw(i: nat)
      requires i < |pumpkins|
      modifies this`pumpkins, this`leftSlots, this`rightSlots, this`leftWeight, this`rightWeight, this`gameMessage
      ensures CurrentBoard() == RemoveStep(old(CurrentBoard()), i)
      ensures gameMessage == (if old(pumpkins)[i].seesawPosition.Some? then Removed(old(pumpkins)[i].side, old(pumpkins)[i].weight)
                              else old(gameMessage))
    {
      var p := pumpkins[i];
      if p.side == Left && p.seesawPosition.Some? {
        leftSlots := ClearSlot(leftSlots, p.seesawPosition.value.slotIndex);
        leftWeight := leftWeight - p.weight;
        gameMessage := Removed(Left, p.weight);
      } else if p.side == Right && p.seesawPosition.Some? {
        rightSlots := ClearSlot(rightSlots, p.seesawPosition.value.slotIndex);
        rightWeight := rightWeight - p.weight;
        gameMessage := Removed(Right, p.weight);
      }
      var index;
      if p.side == Left {
        index := p.id - 1;
      } else {
        var leftCount := CountSide(pumpkins, Left);
        index := p.id - leftCount - 1;
      }
      pumpkins := pumpkins[i := Returned(p, SpawnPosition(p.side, index))];
    }

    /** The placement branch of `handlePumpkinClick` for the pumpkin at index `i`;
        `placedX`, `placedY` are its rotated position. */
    method PlaceOnSeesaw(i: nat, roll: real, placedX: int, placedY: int)
      requires i < |pumpkins| && |leftSlots| == SlotCount && |rightSlots| == SlotCount && IsRandom(roll)
      modifies this`pumpkins, this`leftSlots, this`rightSlots, this`leftWeight, this`rightWeight, this`gameMessage
      ensures CurrentBoard() == PlaceStep(old(CurrentBoard()), i, roll, placedX, placedY)
      ensures gameMessage == Added(old(pumpkins)[i].side, old(pumpkins)[i].weight)
    {
      var p := pumpkins[i];
      var slotIndex := FindNextAvailableSlot(p.side, roll);
      if p.side == Left {
        leftWeight := leftWeight + p.weight;
        gameMessage := Added(Left, p.weight);
      } else {
        rightWeight := rightWeight + p.weight;
        gameMessage := Added(Right, p.weight);
      }
      pumpkins := pumpkins[i := Placed(p, slotIndex, placedX, placedY)];
    }

    /** `handlePumpkinClick(id)`: removes the clicked pumpkin when it is on the
        board, places it otherwise, and ignores an unknown id. */
    method HandlePumpkinClick(id: int, roll: real, placedX: int, placedY: int)
      requires Valid() && IsRandom(roll)
      modifies this`pumpkins, this`leftSlots, this`rightSlots, this`leftWeight, this`rightWeight, this`gameMessage,
               this`clicks, this`trace
      ensures Valid()
      ensures CurrentBoard() == ClickStep(old(CurrentBoard()), ClickInput(id, roll, placedX, placedY))
      ensures gameMessage == ClickMessage(old(CurrentBoard()), ClickInput(id, roll, placedX, placedY), old(gameMessage))
      ensures clicks == old(clicks) + [ClickInput(id, roll, placedX, placedY)]
    {
      var c := ClickInput(id, roll, placedX, placedY);
      TraceSnoc(trace, clicks, c);
      assert (trace + [ClickStep(trace[|clicks|], c)])[0] == trace[0];
      var found := IndexOfId(pumpkins, id);
      if found.Some? && pumpkins[found.value].onSeesaw {
        RemoveFromSeesaw(found.value);
      } else if found.Some? {
        PlaceOnSeesaw(found.value, roll, placedX, placedY);
      }
      clicks, trace := clicks + [c], trace + [CurrentBoard()];
    }

    /** The angle effect: the tilt of the current totals and its status message. */
    method UpdateAngle()
      modifies this`seesawAngle, this`gameMessage
      ensures seesawAngle == Tilt(leftWeight, rightWeight)
      ensures gameMessage == AngleMessage(seesawAngle, leftWeight, rightWeight, old(gameMessage))
    {
      var weightDifference := leftWeight - rightWeight;
      var newAngle := Max(Min(weightDifference * 2, MaxAngle), -MaxAngle);
      seesawAngle := newAngle;
      if Abs(newAngle) < 5 && leftWeight > 0 && rightWeight > 0 {
        gameMessage := NearlyBalanced;
      } else if newAngle == MaxAngle {
        gameMessage := LeftTooHeavy;
      } else if newAngle == -MaxAngle {
        gameMessage := RightTooHeavy;
      }
    }

    /** The balance effect: fires the reward on the step that makes the board
        balanced, at most once a round, and records whether it is balanced now. */
    method CheckBalance()
      requires RewardOk()
      modifies this`showReward, this`hasShownReward, this`gameMessage, this`pendingPromptTimers,
               this`isBalanced, this`rewardsThisRound
      ensures RewardOk()
      ensures var fires := RewardFires(seesawAngle, leftWeight, rightWeight, AnyOnSeesaw(pumpkins),
                                       old(isBalanced), old(hasShownReward));
        && showReward == (old(showReward) || fires)
        && hasShownReward == (old(hasShownReward) || fires)
        && gameMessage == (if fires then BalanceAchieved else old(gameMessage))
        && pendingPromptTimers == old(pendingPromptTimers) + (if fires then 1 else 0)
      ensures isBalanced == IsNowBalanced(seesawAngle, leftWeight, rightWeight)
    {
      var hasSeesawPumpkins := AnyOnSeesaw(pumpkins);
      var isNowBalanced := Abs(seesawAngle) < 3 && leftWeight > 0 && rightWeight > 0;
      if isNowBalanced && !isBalanced && hasSeesawPumpkins && !hasShownReward {
        showReward := true;
        hasShownReward := true;
        gameMessage := BalanceAchieved;
        pendingPromptTimers := pendingPromptTimers + 1;
        rewardsThisRound := rewardsThisRound + 1;
      }
      isBalanced := isNowBalanced;
    }

    /** The effects a state change triggers, run to completion: the angle effect
        when a total changed, then the balance effect with the new angle. */
    method Settle(oldLeftWeight: int, oldRightWeight: int)
      requires RewardOk() && seesawAngle == Tilt(oldLeftWeight, oldRightWeight)
      modifies this`seesawAngle, this`gameMessage, this`showReward, this`hasShownReward,
               this`pendingPromptTimers, this`isBalanced, this`rewardsThisRound
      ensures RewardOk() && Settled()
      ensures var fires := RewardFires(seesawAngle, leftWeight, rightWeight, AnyOnSeesaw(pumpkins),
                                       old(isBalanced), old(hasShownReward));
        && showReward == (old(showReward) || fires)
        && hasShownReward == (old(hasShownReward) || fires)
        && pendingPromptTimers == old(pendingPromptTimers) + (if fires then 1 else 0)
        && gameMessage == if fires then BalanceAchieved
                          else if leftWeight != oldLeftWeight || rightWeight != oldRightWeight
                          then AngleMessage(seesawAngle, leftWeight, rightWeight, old(gameMessage))
                          else old(gameMessage)
    {
      if leftWeight != oldLeftWeight || rightWeight != oldRightWeight {
        UpdateAngle();
      }
      CheckBalance();
    }

    /** A click on a pumpkin and the effects it triggers. A reward fires on this
        click only if none was shown this round, the board was not balanced
        before, and the totals now differ by at most 1 with both positive. */
    method Click(id: int, roll: real, placedX: int, placedY: int)
      requires Valid() && Settled() && IsRandom(roll)
      modifies this`pumpkins, this`leftSlots, this`rightSlots, this`leftWeight, this`rightWeight, this`gameMessage,
               this`clicks, this`trace, this`seesawAngle, this`showReward, this`hasShownReward,
               this`pendingPromptTimers, this`isBalanced, this`rewardsThisRound
      ensures Valid() && Settled()
      ensures CurrentBoard() == ClickStep(old(CurrentBoard()), ClickInput(id, roll, placedX, placedY))
      ensures var fires := -1 <= leftWeight - rightWeight <= 1 && leftWeight > 0 && rightWeight > 0
                           && !old(isBalanced) && !old(hasShownReward);
        var clicked := ClickMessage(old(CurrentBoard()), ClickInput(id, roll, placedX, placedY), old(gameMessage));
        && showReward == (old(showReward) || fires)
        && hasShownReward == (old(hasShownReward) || fires)
        && pendingPromptTimers == old(pendingPromptTimers) + (if fires then 1 else 0)
        && gameMessage == if fires then BalanceAchieved
                          else if leftWeight != old(leftWeight) || rightWeight != old(rightWeight)
                          then AngleMessage(seesawAngle, leftWeight, rightWeight, clicked)
                          else clicked
    {
      var oldLeft, oldRight := leftWeight, rightWeight;
      HandlePumpkinClick(id, roll, placedX, placedY);
      BoardCarriesWeight();
      Settle(oldLeft, oldRight);
      RewardFiresOnlyWhenLevel(leftWeight, rightWeight, AnyOnSeesaw(pumpkins), old(isBalanced), old(hasShownReward));
    }

    /** Weight on the left means some pumpkin is on the board. */
    lemma BoardCarriesWeight()
      requires Valid()
      ensures leftWeight > 0 ==> AnyOnSeesaw(pumpkins)
    {
      BoardAlwaysValid();
      if leftWeight > 0 {
        WeightMeansPumpkinOnBoard(pumpkins, Left);
      }
    }

    /** `continueGame`: closes the prompt and keeps playing. */
    method ContinueGame()
      modifies this`showResetPrompt
      ensures !showResetPrompt
    {
      showResetPrompt := false;
    }

    /** The 3-second timer a reward scheduled fires and shows the prompt. A reset
        does not cancel these timers. */
    method RevealResetPrompt()
      requires pendingPromptTimers > 0
      modifies this`showResetPrompt, this`pendingPromptTimers
      ensures showResetPrompt && pendingPromptTimers == old(pendingPromptTimers) - 1
    {
      showResetPrompt := true;
      pendingPromptTimers := pendingPromptTimers - 1;
    }

    /** The first half of `resetGame`: the reward and the prompt are hidden
        and the round counts as unbalanced and unrewarded. */
    method HideReward()
      modifies this`showReward, this`showResetPrompt, this`isBalanced, this`hasShownReward, this`rewardsThisRound
      ensures RewardOk()
      ensures !showReward && !showResetPrompt && !isBalanced && !hasShownReward
    {
      showReward := false;
      showResetPrompt := false;
      isBalanced := false;
      hasShownReward := false;
      rewardsThisRound := 0;
    }

    /** The second half of `resetGame`: a new round from the current settings,
        with no weight, every slot free and the opening message. */
    method NewRound(rr: RoundRolls)
      requires IsValid(settings) && RollsFit(settings, rr)
      modifies this`pumpkins, this`leftWeight, this`rightWeight, this`leftSlots, this`rightSlots,
               this`gameMessage, this`clicks, this`trace
      ensures History() && clicks == [] && trace == [CurrentBoard()]
      ensures CurrentBoard() == Initial(Round(settings, rr))
      ensures gameMessage == ClickToPlace
    {
      pumpkins := GenerateRandomPumpkins(settings, rr);
      leftWeight := 0;
      rightWeight := 0;
      leftSlots := NoSlots();
      rightSlots := NoSlots();
      gameMessage := ClickToPlace;
      clicks, trace := [], [Initial(pumpkins)];
      assert IsValid(settings) && RollsFit(settings, rr) && trace[0] == Initial(Round(settings, rr));
    }

    /** `resetGame`: clears the reward flags, totals and slots and generates a
        new round from the current settings. */
    method ResetGame(rr: RoundRolls)
      requires Valid() && RollsFit(settings, rr)
      modifies this`showReward, this`showResetPrompt, this`isBalanced, this`hasShownReward, this`rewardsThisRound,
               this`pumpkins, this`leftWeight, this`rightWeight, this`leftSlots, this`rightSlots,
               this`gameMessage, this`clicks, this`trace
      ensures Valid()
      ensures !showReward && !showResetPrompt && !isBalanced && !hasShownReward
      ensures CurrentBoard() == Initial(Round(settings, rr))
      ensures gameMessage == ClickToPlace
    {
      HideReward();
      NewRound(rr);
    }

    /** The reset button (or the prompt's new-game button) and the effects it triggers. */
    method Reset(rr: RoundRolls)
      requires Valid() && Settled() && RollsFit(settings, rr)
      modifies this`showReward, this`showResetPrompt, this`isBalanced, this`hasShownReward, this`rewardsThisRound,
               this`pumpkins, this`leftWeight, this`rightWeight, this`leftSlots, this`rightSlots,
               this`gameMessage, this`clicks, this`trace, this`seesawAngle, this`pendingPromptTimers
      ensures Valid() && Settled()
      ensures settings == old(settings) && CurrentBoard() == Initial(Round(settings, rr))
      ensures seesawAngle == 0 && gameMessage == ClickToPlace
      ensures !showReward && !showResetPrompt && !isBalanced && !hasShownReward
      ensures pendingPromptTimers == old(pendingPromptTimers)
    {
      var oldLeft, oldRight := leftWeight, rightWeight;
      ResetGame(rr);
      Settle(oldLeft, oldRight);
    }

    /** `applySettings`: the dialog hands over settings that passed `isValid`;
        the game adopts them and starts a new round drawn from them. */
    method ApplySettings(newSettings: GameSettings, rr: RoundRolls)
      requires Valid() && Settled() && IsValid(newSettings) && RollsFit(newSettings, rr)
      modifies this`showReward, this`showResetPrompt, this`isBalanced, this`hasShownReward, this`rewardsThisRound,
               this`pumpkins, this`leftWeight, this`rightWeight, this`leftSlots, this`rightSlots,
               this`gameMessage, this`clicks, this`trace, this`seesawAngle, this`pendingPromptTimers, this`settings
      ensures Valid() && Settled()
      ensures settings == newSettings && CurrentBoard() == Initial(Round(newSettings, rr))
      ensures seesawAngle == 0 && gameMessage == ClickToPlace
      ensures !showReward && !showResetPrompt && !isBalanced && !hasShownReward
      ensures pendingPromptTimers == old(pendingPromptTimers)
    {
      settings := newSettings;
      Reset(rr);
    }

    /** `applySettings` as written: the delayed `resetGame` is the one captured
        by the render that handled the click, and its `generateRandomPumpkins`
        reads that render's settings. The game stores the new settings, but the
        round is drawn from the previous ones. */
    method ApplySettingsAsWritten(newSettings: GameSettings, rr: RoundRolls)
      requires Valid() && Settled() && IsValid(newSettings) && RollsFit(settings, rr)
      modifies this`showReward, this`showResetPrompt, this`isBalanced, this`hasShownReward, this`rewardsThisRound,
               this`pumpkins, this`leftWeight, this`rightWeight, this`leftSlots, this`rightSlots,
               this`gameMessage, this`clicks, this`trace, this`seesawAngle, this`pendingPromptTimers, this`settings
      ensures Valid() && Settled()
      ensures settings == newSettings && CurrentBoard() == Initial(Round(old(settings), rr))
      ensures seesawAngle == 0 && gameMessage == ClickToPlace
      ensures !showReward && !showResetPrompt && !isBalanced && !hasShownReward
      ensures pendingPromptTimers == old(pendingPromptTimers)
    {
      Reset(rr);
      settings := newSettings;
    }
  }

  /** Applying 1 to 1 left pumpkins over the default settings: as written, the
      round that follows still has between 4 and 8 left pumpkins. */
  lemma StaleSettingsRound(rr: RoundRolls)
    requires RollsFit(DefaultSettings(), rr)
    ensures var applied := DefaultSettings().(leftPumpkinsMin := 1, leftPumpkinsMax := 1);
      var lefts := CountSide(Round(DefaultSettings(), rr), Left);
      && IsValid(applied)
      && 4 <= lefts <= 8
      && !(applied.leftPumpkinsMin <= lefts <= applied.leftPumpkinsMax)
  {
    RoundProperties(DefaultSettings(), rr);
  }

  /** With the intended behaviour, the round after applying settings has as many
      pumpkins on each side as the applied settings allow, and weights in their range. */
  lemma AppliedRoundFollowsSettings(s: GameSettings, rr: RoundRolls)
    requires IsValid(s) && RollsFit(s, rr)
    ensures var ps := Round(s, rr);
      && s.leftPumpkinsMin <= CountSide(ps, Left) <= s.leftPumpkinsMax
      && s.rightPumpkinsMin <= |ps| - CountSide(ps, Left) <= s.rightPumpkinsMax
      && forall i :: 0 <= i < |ps| ==> s.minWeight <= ps[i].weight <= s.maxWeight
  {
    RoundProperties(s, rr);
  }
}
