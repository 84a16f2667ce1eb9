# Pumpkin seesaw, modelled in Dafny

Pumpkin seesaw is a browser game. Each side of a seesaw holds a group of
pumpkins; each group has a random number of pumpkins, and each pumpkin has a
random weight. Clicking a pumpkin puts it on its own side of the board, in the
first free one of 8 slots. Clicking it again sends it back to where it spawned.
The board tilts by twice the weight difference, clamped to ±30 degrees. When
the two sides come within 3 degrees of level with weight on both, a reward is
shown once per round, and 3 seconds later a prompt offers a new round. A
settings dialog sets:

- the pumpkin-count range of each side;
- the weight range;
- a colour preset and a seesaw style.

The dialog hands the settings to the game only when they pass its validity
check.

This project models three files:

- the game component's state machine, `components/pumpkin-game.tsx`;
- the settings dialog's logic, `components/settings.tsx`;
- the pumpkin's display rules, `components/pumpkin.tsx`.

It proves the properties the game relies on.

Modules:

- `Wrappers`: `Option`.
- `Randomness`: a `Math.random()` draw is a caller-supplied real in [0, 1).
  `RandomInt` is the drawing formula `lo + floor(r * (hi - lo + 1))`.
- `Settings`:
  - the `GameSettings` record and its defaults;
  - `isValid`;
  - the dialog as class `SettingsForm`: the draft, `handleChange`, `handleNumberChange` and the apply button.
- `Pumpkin`: `getPumpkinColor`, `getStemColor` and the `zIndex` rule.
- `Seesaw`: the game's rules as values.
  - Spawn positions, placement offsets, the tilt and its status message, and the balance test.
  - The slot choice of `findNextAvailableSlot`.
  - The two branches of `handlePumpkinClick` as steps on a `Board` value.
  - `generateRandomPumpkins`, a method with the source's two loops, proved equal to the function `Round`.
- `SeesawInvariant`: the board invariant `BoardValid`. It holds at the start of every round and is kept by every click. It says:
  - ids run 1, 2, … with the left pumpkins first;
  - each pumpkin's placement data agree with its `onSeesaw` flag;
  - an unplaced pumpkin stands at its spawn point;
  - each side's total is the weight of the pumpkins placed there;
  - each slot array tracks which slots are held.

  `TraceValid` proves by induction that every board of a round satisfies it.
- `PumpkinGame`: class `SeesawGame`.
  - Its fields are the component's state variables.
  - Its methods are the handlers (`handlePumpkinClick`, `continueGame`, `resetGame`, `applySettings`) and the two effects (angle, balance).
  - Its ghost history records the clicks of the round and the boards they pass through. The class invariant is `Valid()`, which lemma `BoardAlwaysValid` turns into `BoardValid`.

Model choices:

- Only the desktop layout is modelled (`isMobile` false). That gives a board of length 400, a pivot at (500, 550) and pumpkin sizes 60 to 119. The placement offsets 340 and 40 are then exact integers.
- The effects run in this order after a handler changes state: the angle effect, only when a total changed; then the balance effect, using the new angle. `Settle` models this.
- The source's own order is different; see "## Findings".

## Model

| member | source | states |
|---|---|---|
| Settings.DefaultSettings | components/pumpkin-game.tsx:29-38 | The default settings (4 to 8 pumpkins a side, weights 1 to 12) pass the dialog's validity check. |
| Settings.IsValid | components/settings.tsx:34-43 | The six conditions of `isValid`. Valid settings have every maximum at least 1, and `ValidSettingsDrawPositive` shows that every draw from them is at least 1. |
| Settings.Changed | components/settings.tsx:18-23 | The changed field takes the new value; every other field keeps its old value. |
| Settings.SettingsForm.constructor | components/settings.tsx:15 | The draft starts as a copy of the game's current settings. |
| Settings.SettingsForm.HandleChange | components/settings.tsx:18-23 | The draft becomes the old draft with one field replaced. |
| Settings.SettingsForm.HandleNumberChange | components/settings.tsx:26-31 | Input that does not parse leaves the draft unchanged; a parsed number replaces exactly that field. |
| Settings.SettingsForm.ApplyClicked | components/settings.tsx:193-199 | Settings are handed over exactly when the draft is valid, and what is handed over is the draft. |
| Randomness.RandomInt | components/pumpkin-game.tsx:139 | The integer draw `lo + floor(r * (hi - lo + 1))` in exact real arithmetic. `RandomIntInRange` and `RandomIntCovers` show it ranges over exactly [lo, hi]. |
| Randomness.RandomIntInRange | components/pumpkin-game.tsx:139 | A draw `lo + floor(r * (hi - lo + 1))` with r in [0, 1) lies in [lo, hi]. |
| Randomness.RandomIntCovers | components/pumpkin-game.tsx:139 | Every value in [lo, hi] is produced by some draw. |
| Pumpkin.PumpkinColor | components/pumpkin.tsx:53-92 | `getPumpkinColor`. `ColorIsPaletteEntry`, `SameColorIffSameBucket` and `DefaultColors` state that the colour is the preset's palette entry for the weight class. |
| Pumpkin.StemColor | components/pumpkin.tsx:95-108 | `getStemColor`. `StemColorPerPreset` and `UnlistedPresetFallsBack` state one distinct stem per listed preset, and green-800 otherwise. |
| Pumpkin.StemColorPerPreset | components/pumpkin.tsx:95-108 | Two listed presets get the same stem colour if and only if they are the same preset. Any other value gets the default stem. |
| Pumpkin.WeightBucket | components/pumpkin.tsx:53-92 | The four weight classes are exactly: up to 3, 4 to 6, 7 to 9, and 10 or more. |
| Pumpkin.Palette | components/pumpkin.tsx:53-92 | Each preset has a table of four body colours. |
| Pumpkin.ColorIsPaletteEntry | components/pumpkin.tsx:53-92 | For every preset, the body colour is the palette entry of the weight's class. |
| Pumpkin.SameColorIffSameBucket | components/pumpkin.tsx:53-92 | Within a preset, two weights get the same colour if and only if they are in the same class. |
| Pumpkin.PaletteEntriesDiffer | components/pumpkin.tsx:53-92 | A preset's four colours are pairwise distinct. |
| Pumpkin.BucketMonotone | components/pumpkin.tsx:53-92 | A heavier pumpkin is never in a lighter class. |
| Pumpkin.DefaultColors | components/pumpkin.tsx:84-91 | The default preset gives orange-400, -500, -600 and -700 in the four weight ranges. |
| Pumpkin.UnlistedPresetFallsBack | components/pumpkin.tsx:53-108 | A preset outside the list gets the default body colour and the stem colour green-800. |
| Pumpkin.ZIndex | components/pumpkin.tsx:128 | The `zIndex` rule, with an absent slot treated as 0. `PlacedDrawnAbove` states its ordering. |
| Pumpkin.PlacedDrawnAbove | components/pumpkin.tsx:128 | A pumpkin on the seesaw in slot 0 to 7 is drawn above every pumpkin off it. Of two placed pumpkins, the one in the higher slot is drawn above. |
| Seesaw.JsRem | components/pumpkin-game.tsx:97 | JavaScript's `%`: the result equals Dafny's remainder for a non-negative dividend, and carries the dividend's sign for a negative one. |
| Seesaw.SpawnPosition | components/pumpkin-game.tsx:95-128 | For a non-negative index, left spawn points have x in [80, 240], right ones x in [760, 920], and y is at least 80. |
| Seesaw.SpawnPositionInjective | components/pumpkin-game.tsx:95-128 | The spawn point determines the index it was computed from. |
| Seesaw.SpawnPositionsDistinct | components/pumpkin-game.tsx:95-128 | Two different pumpkins never spawn on the same point. |
| Seesaw.DistanceFromCenter | components/pumpkin-game.tsx:286-297 | `distanceFromCenter` for a slot. `DistanceSigns` and `DistanceShrinks` state its range, its mirror symmetry and its order. |
| Seesaw.DistanceSigns | components/pumpkin-game.tsx:286-297 | Left slots lie between 340 and 60 left of the pivot; right slots mirror them. |
| Seesaw.DistanceShrinks | components/pumpkin-game.tsx:286-297 | On both sides, a later slot is nearer the pivot. |
| Seesaw.VerticalOffset | components/pumpkin-game.tsx:305 | The baseline offset is -40 for even slots and -50 for odd ones. |
| Seesaw.Tilt | components/pumpkin-game.tsx:377-381 | The angle stays within ±30. Inside that range it equals twice the weight difference; beyond it, it equals the nearer bound. |
| Seesaw.AngleMessage | components/pumpkin-game.tsx:384-390 | The angle effect's message. `StatusMessageByWeights` characterises it by the two totals. |
| Seesaw.StatusMessageByWeights | components/pumpkin-game.tsx:377-391 | "Nearly balanced" appears exactly when the totals differ by at most 2 and both are positive. A lead of 15 or more gives that side's warning. Otherwise the message stays. |
| Seesaw.IsNowBalanced | components/pumpkin-game.tsx:360 | `isNowBalanced`. `BalancedIffWithinOne` states it at the tilt of the totals. |
| Seesaw.RewardFires | components/pumpkin-game.tsx:363 | The balance effect's trigger. `RewardFiresOnlyWhenLevel` states it at the current tilt. |
| Seesaw.RewardFiresAsWritten | components/pumpkin-game.tsx:356-391 | The trigger evaluated at the previous totals' tilt, as the declared effect order runs it. `StaleAngleFiresReward` exhibits a spurious reward. |
| Seesaw.BalancedIffWithinOne | components/pumpkin-game.tsx:360 | At the tilt of the totals, the balance test holds if and only if the totals differ by at most 1 and both are positive. |
| Seesaw.RewardFiresOnlyWhenLevel | components/pumpkin-game.tsx:356-375 | At the current tilt, the reward fires if and only if: the totals differ by at most 1 and both are positive, a pumpkin is on the board, the board was not balanced before, and no reward was shown yet. |
| Seesaw.StaleAngleFiresReward | components/pumpkin-game.tsx:356-391 | With the effects in declared order, a reward fires for totals 1 and 5, whose tilt is -8 (see Findings). |
| Seesaw.LowestFree | components/pumpkin-game.tsx:194 | A found slot is in range and free. |
| Seesaw.LowestFreeIsFirst | components/pumpkin-game.tsx:194 | Nothing is found if and only if every slot is taken; otherwise every slot before the found one is taken. |
| Seesaw.NextSlot | components/pumpkin-game.tsx:189-206 | The slot returned is always in [0, 8), including the random overflow slot. |
| Seesaw.SlotsAfterChoice | components/pumpkin-game.tsx:189-206 | The slot array keeps its 8 entries. |
| Seesaw.NextSlotChoice | components/pumpkin-game.tsx:189-206 | While a slot is free, the choice is the first free slot, and it alone is marked. When all slots are taken, nothing is marked. |
| Seesaw.ClearSlot | components/pumpkin-game.tsx:217-218 | Exactly slot k is cleared; every other slot keeps its value. |
| Seesaw.NoSlots | components/pumpkin-game.tsx:73-74 | Eight slots, all free. |
| Seesaw.IndexOfId | components/pumpkin-game.tsx:211 | A found index is in range and holds the id. |
| Seesaw.IndexOfIdIsFirst | components/pumpkin-game.tsx:211 | No index is found if and only if no pumpkin has the id; otherwise the index found is the first one with the id. |
| Seesaw.Initial | components/pumpkin-game.tsx:410-414 | A new round's board has two slot arrays of 8 entries. |
| Seesaw.RemoveStep | components/pumpkin-game.tsx:214-275 | Only the clicked pumpkin changes. It keeps its id, side, weight and size, leaves the board and goes back to its spawn point. The other side's total and slots are unchanged. With a seesaw position, its side loses its weight and exactly its slot is cleared; without one, its side is unchanged. |
| Seesaw.PlaceStep | components/pumpkin-game.tsx:278-330 | Only the clicked pumpkin changes. It keeps its id, side, weight and size, is drawn at the given point and holds the slot `NextSlot` chose. Its side gains its weight and gets the slots after the choice. The other side's total and slots are unchanged. |
| Seesaw.ClickMessage | components/pumpkin-game.tsx:222-299 | The message a click leaves: removed or added, with that side and weight. `HandlePumpkinClick` and `Click` state it as the new message. |
| Seesaw.ClickStep | components/pumpkin-game.tsx:209-331 | An unknown id changes nothing. Otherwise only the pumpkin found changes and its on-board flag flips. The other side's total and slots are unchanged, and the slot arrays keep 8 entries. |
| SeesawInvariant.OnePumpkinPerClick | components/pumpkin-game.tsx:209-331 | In a well-formed round, a click leaves every pumpkin with another id unchanged, and the other side's total and slots too. A click on an id outside the round changes nothing. |
| Seesaw.LeftCount | components/pumpkin-game.tsx:89-91 | The number of left pumpkins, as an exact-real draw. `RoundAt` puts it in the settings' range. |
| Seesaw.RightCount | components/pumpkin-game.tsx:153-155 | The number of right pumpkins, drawn the same way. |
| Seesaw.Round | components/pumpkin-game.tsx:87-181 | The round the generator builds. `GenerateRandomPumpkins` is proved equal to it; `RoundAt` and `RoundProperties` state its contents. |
| Seesaw.GenerateRandomPumpkins | components/pumpkin-game.tsx:87-181 | The list the two loops build is `Round(s, rr)`. |
| Seesaw.RoundAt | components/pumpkin-game.tsx:87-181 | Each side's count lies within its range. The round holds exactly that many pumpkins. The i-th pumpkin of each side has id i + 1 (right side: leftCount + i + 1), spawns at its i-th spawn point, and takes its weight and size from its own draw. |
| Seesaw.ValidSettingsDrawPositive | components/pumpkin-game.tsx:87-181 | Under valid settings, every count and every weight drawn is at least 1. |
| SeesawInvariant.IndexOfIdInRound | components/pumpkin-game.tsx:209-272 | In a well-formed round, `find` returns the pumpkin at index id - 1, and no other pumpkin has that id, so the `map` changes only that pumpkin. |
| SeesawInvariant.WeightMeansPumpkinOnBoard | components/pumpkin-game.tsx:359-360 | A side with non-zero weight has a pumpkin on the board. |
| SeesawInvariant.RoundProperties | components/pumpkin-game.tsx:87-181 | Under valid settings, a generated round has: each count within its range, consecutive ids with the left side first, weights within the weight range, sizes in [60, 120), and every pumpkin off the board at its spawn point. |
| SeesawInvariant.FreshBoard | components/pumpkin-game.tsx:399-415 | A new round with zero totals and free slots satisfies the board invariant. |
| SeesawInvariant.PlaceKeepsBoard | components/pumpkin-game.tsx:278-330 | Placement keeps the board invariant. The side is marked overflowed exactly when it had no free slot. |
| SeesawInvariant.RemoveKeepsBoard | components/pumpkin-game.tsx:214-275 | On a valid board, a pumpkin being removed has a slot in [0, 8), and removal keeps the invariant. |
| SeesawInvariant.ClickKeepsBoard | components/pumpkin-game.tsx:209-331 | Every click keeps the board invariant. |
| SeesawInvariant.TraceValid | components/pumpkin-game.tsx:209-331 | Every board a round reaches through clicks satisfies the invariant. Slot tracking is exact on each side until an overflow placement happens there. |
| SeesawInvariant.BoardMeaning | components/pumpkin-game.tsx:189-232 | On a valid board: a side's total is the weight placed there; a marked slot has a pumpkin in it; and, before an overflow on that side, a free slot has none. |
| SeesawInvariant.ClickActsOn | components/pumpkin-game.tsx:209-331 | In a well-formed round, clicking the id of pumpkin i removes that pumpkin if it is on the board, and places it otherwise. |
| SeesawInvariant.RemoveUndoesPlace | components/pumpkin-game.tsx:214-330 | Removing a pumpkin just placed in a free slot restores the board. After an overflow placement, only the shared slot changes: it is cleared. |
| SeesawInvariant.PlaceThenRemove | components/pumpkin-game.tsx:209-331 | Clicking a pumpkin twice restores the board when its side had a free slot. After an overflow placement, only the shared slot changes: it is cleared. |
| SeesawInvariant.PlacedPumpkinsDrawnAbove | components/pumpkin-game.tsx:704 | On a valid board, every pumpkin on the seesaw is drawn above every pumpkin off it. |
| PumpkinGame.SeesawGame.BoardAlwaysValid | components/pumpkin-game.tsx:58-74 | Every state reached through the modelled handlers (mount, clicks, reset, apply) satisfies the board invariant over its state variables. |
| PumpkinGame.SeesawGame.constructor | components/pumpkin-game.tsx:58-74 | Mounting gives: the default settings, a round generated from them, angle 0, no reward or prompt, and an empty message. The result satisfies the class invariant. |
| PumpkinGame.SeesawGame.FindNextAvailableSlot | components/pumpkin-game.tsx:189-206 | Returns the `NextSlot` choice and marks it on that side only; the other side is untouched. |
| PumpkinGame.SeesawGame.RemoveFromSeesaw | components/pumpkin-game.tsx:214-275 | The new board state is `RemoveStep` of the old one. The message names the removed weight and side when the pumpkin had a seesaw position. |
| PumpkinGame.SeesawGame.PlaceOnSeesaw | components/pumpkin-game.tsx:278-330 | The new board state is `PlaceStep` of the old one. The message names the added weight and side. |
| PumpkinGame.SeesawGame.HandlePumpkinClick | components/pumpkin-game.tsx:209-331 | The new board is `ClickStep` of the old one, the message is `ClickMessage`, and the click is appended to the history. The class invariant is kept. |
| PumpkinGame.SeesawGame.UpdateAngle | components/pumpkin-game.tsx:377-391 | The angle becomes the tilt of the totals, and the message becomes the angle effect's message. |
| PumpkinGame.SeesawGame.CheckBalance | components/pumpkin-game.tsx:356-375 | When the trigger fires: the reward is shown, it is marked as shown, the success message is set, and one prompt timer is scheduled. `isBalanced` becomes the balance test. At most one reward is shown a round. |
| PumpkinGame.SeesawGame.Settle | components/pumpkin-game.tsx:356-391 | After the effects, the angle is the tilt of the totals and `isBalanced` is its balance test. The reward fires exactly on the trigger at the new angle. The message becomes the success message when the reward fires; otherwise it becomes the angle effect's message when a total changed, and it stays as it was when neither happened. |
| PumpkinGame.SeesawGame.Click | components/pumpkin-game.tsx:209-391 | A click with its effects keeps the class invariant and leaves the board at `ClickStep`. The settings and the prompt are untouched. The reward is shown, marked as shown and given a prompt timer exactly when none was shown this round, the board was unbalanced, and the totals now differ by at most 1 with both positive. A reward shown earlier stays. The message is the success message when the reward fires; otherwise it is the angle message over `ClickMessage` when a total changed, and `ClickMessage` alone when none did. |
| PumpkinGame.SeesawGame.ContinueGame | components/pumpkin-game.tsx:394-396 | The prompt is closed. |
| PumpkinGame.SeesawGame.RevealResetPrompt | components/pumpkin-game.tsx:368-370 | A pending timer fires and shows the prompt. |
| PumpkinGame.SeesawGame.HideReward | components/pumpkin-game.tsx:401-404 | Reward, prompt, balanced and shown flags are all cleared. |
| PumpkinGame.SeesawGame.NewRound | components/pumpkin-game.tsx:406-414 | A round is drawn from the current settings, with zero totals, free slots and the opening message. The history restarts: no clicks, and a trace holding the new board. |
| PumpkinGame.SeesawGame.ResetGame | components/pumpkin-game.tsx:399-415 | Flags cleared, a new round from the current settings, and the opening message. The class invariant is kept. |
| PumpkinGame.SeesawGame.Reset | components/pumpkin-game.tsx:654-659 | The reset button with its effects: the settings are kept and the board is a new round. The angle is 0, the message is the opening one, and all reward flags are cleared. The pending timers are left running. |
| PumpkinGame.SeesawGame.ApplySettings | components/pumpkin-game.tsx:418-426 | The game adopts the valid settings handed over and starts a new round drawn from them. The angle is 0, the message is the opening one, the flags are cleared and the pending timers are left running (the intended behaviour; see Findings). |
| PumpkinGame.AppliedRoundFollowsSettings | components/pumpkin-game.tsx:87-181 | A round drawn from valid settings has as many pumpkins per side as those settings allow, and every weight in their range. |
| PumpkinGame.SeesawGame.ApplySettingsAsWritten | components/pumpkin-game.tsx:418-426 | As written: the new settings are stored, but the round is drawn from the previous settings. The angle is 0, the message is the opening one, the flags are cleared and the timers are left running. The class invariant is kept. |
| PumpkinGame.StaleSettingsRound | components/pumpkin-game.tsx:418-426 | Applying 1 to 1 left pumpkins over the defaults: as written, the next round still has 4 to 8 left pumpkins, outside the applied range. |

## Left out

- Trigonometry and rotated positions:
  - The x/y a placed pumpkin is drawn at (cos/sin of the angle) is a caller-supplied integer.
  - The effect that moves placed pumpkins when the angle changes (components/pumpkin-game.tsx:334-354) is not modelled. It changes only x/y, which no other rule reads.
- The mobile layout (`isMobile`, screen size, `gameScale`) is not modelled. Only the desktop constants are modelled.
- Rendering:
  - the canvas, the seesaw's drawing and styles, the weight labels and the font size;
  - `components/balance-reward.tsx`, `components/orientation-warning.tsx`, the `app/` shell and the `showSettings` toggle.

  These are display only.
- React scheduling: batching, re-renders and Strict Mode double calls are out of scope. The effects are modelled as synchronous steps run after each handler.
- Timers: the 3-second prompt timer is a counter of pending timers, fired by `RevealResetPrompt`. Its real-time delay is left out. The timers are never cancelled, as in the source.
- `Number.parseInt` is left out. `HandleNumberChange` receives its result as an `Option`, with `None` for NaN.
- Randomness.RandomInt: draws use exact real arithmetic. The count draws are written `Math.floor(r * (max - min + 1) + min)`. In binary64 that sum rounds up to `max + 1` for the largest values `Math.random()` returns (r = 1 - 2^-52 on a 4 to 8 range gives 9). The model does not capture that one-above-range count, so the count ranges of `Seesaw.RoundAt` and `SeesawInvariant.RoundProperties` hold only for exact arithmetic. The weight and size draws, `min + floor(r * n)`, cannot round this way.
- The JavaScript number width: totals, weights and ids are unbounded integers. This assumes the settings stay far below 2^53; `isValid` puts no upper bound on the maximums, and a typed value is not stopped by the inputs' `max` attribute.
- `ClearSlot`: an out-of-range index leaves the array unchanged, where JavaScript would extend it. On every reachable board the index is in [0, 8) (`RemoveKeepsBoard`).
- `seesawPosition` undefined is modelled as `None`. The `side` type admits `null`, but the generator never produces it, so the model has only `Left` and `Right`.
- The weight updates are written with stale closures (`leftWeight + pumpkin.weight` instead of the updater's argument), and the slot arrays are copied from the render's closure (`[...leftSlots]`). Both are modelled with the current state. This matches the source whenever at most one click is handled per render.
- The mount effect (components/pumpkin-game.tsx:184-186) regenerates the pumpkins on every screen-size change without resetting the totals, slots or flags. Only the first run, at mount, is modelled; after a resize the source's board would break the board invariant.
- PumpkinGame.SeesawGame.ApplySettings: the 100 ms delay before the reset is not modelled; the reset follows at once. Its stale settings are a finding, below.

## Findings

| source | as written | input that shows it | evidently intended | confidence | as-written member | corrected member |
|---|---|---|---|---|---|---|
| components/pumpkin-game.tsx:356-391 | The balance effect is declared before the angle effect. After a click it therefore runs with the new totals but the previous render's angle, as `RewardFiresAsWritten` describes. | Place a left pumpkin of weight 1: the angle becomes 2, and the right side is empty, so the board is not balanced. Then place a right pumpkin of weight 5. The balance effect sees angle 2 with both totals positive, and fires the reward while the new tilt is -8. | The balance test uses the tilt of the current totals, so a reward fires only when the totals differ by at most 1. | high; not executed | Seesaw.StaleAngleFiresReward | PumpkinGame.SeesawGame.Settle |
| components/pumpkin-game.tsx:418-426 | `applySettings` stores the new settings and runs `resetGame` from a 100 ms timer. The timer calls the closure of the render that handled the click. That closure's `generateRandomPumpkins` reads that render's settings (lines 89-90, 139, 153-154), which are the old ones. | Start from the defaults (4 to 8 pumpkins a side) and apply settings with exactly 1 left pumpkin. The new round still has 4 to 8 left pumpkins (`StaleSettingsRound`). | The round after Apply is drawn from the applied settings, so its counts and weights lie in their ranges (`AppliedRoundFollowsSettings`). | high; not executed | PumpkinGame.SeesawGame.ApplySettingsAsWritten | PumpkinGame.SeesawGame.ApplySettings |
