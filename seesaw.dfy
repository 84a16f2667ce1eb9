/** The rules of the seesaw game of components/pumpkin-game.tsx, on the desktop
    layout (`isMobile` false: board length 400, pivot at (500, 550)), as values:
    spawn positions, placement offsets, the tilt and its status message, balance
    detection, the slot choice, the two branches of a click as steps on a
    `Board`, and the generation of a round. */
module Seesaw {
  import opened Wrappers
  import opened Randomness
  import opened Settings

  const SlotCount: nat := 8
  const MaxAngle := 30
  const SeesawLength := 400
  const SeesawCenterY := 550

  datatype Side = Left | Right

  function Other(side: Side): Side {
    if side == Left then Right else Left
  }

  /** Where a pumpkin rests on the level board: signed distance from the pivot
      (negative on the left), its baseline y, and its slot. */
  datatype SeesawPosition = SeesawPosition(distanceFromCenter: int, baseY: int, slotIndex: int)

  /** `PumpkinData`. `seesawPosition` is `None` where the source leaves it undefined. */
  datatype PumpkinData = PumpkinData(
    id: int,
    x: int,
    y: int,
    size: int,
    weight: int,
    side: Side,
    onSeesaw: bool,
    seesawPosition: Option<SeesawPosition>)

  /** The status line the game shows (`gameMessage`). */
  datatype Message =
    | NoMessage
    | Added(side: Side, weight: int)
    | Removed(side: Side, weight: int)
    | NearlyBalanced
    | LeftTooHeavy
    | RightTooHeavy
    | BalanceAchieved
    | ClickToPlace

  function Abs(x: int): int {
    if x < 0 then -x else x
  }

  // ---------------------------------------------------------------------------
  // Spawn positions (`calculatePumpkinPosition`, and the return position of a
  // removed pumpkin)

  /** JavaScript's `a % b` for a positive divisor: the remainder has the sign of `a`. */
  function JsRem(a: int, b: int): (r: int)
    requires b > 0
    ensures a >= 0 ==> 0 <= r < b && r == a % b
    ensures a < 0 ==> -b < r <= 0 && r == -((-a) % b)
  {
    if a >= 0 then a % b else -((-a) % b)
  }

  /** The spawn point of the `index`-th pumpkin of a side: three to a row, 80
      apart, rows 100 apart; the left group starts at x = 80, the right at x = 760.
      The row is `Math.floor(index / 3)`, which Dafny's division computes for a
      positive divisor, and the column is JavaScript's `index % 3`. */
  function SpawnPosition(side: Side, index: int): (pos: (int, int))
    ensures index >= 0 && side == Left ==> 80 <= pos.0 <= 240
    ensures index >= 0 && side == Right ==> 760 <= pos.0 <= 920
    ensures index >= 0 ==> pos.1 >= 80
  {
    var row := index / 3;
    var col := JsRem(index, 3);
    if side == Left then (80 + col * 80, 80 + row * 100)
    else (760 + col * 80, 80 + row * 100)
  }

  /** Reads a spawn point back as the index it was computed from. */
  function SpawnIndex(side: Side, pos: (int, int)): Option<nat> {
    var dx := pos.0 - (if side == Left then 80 else 760);
    var dy := pos.1 - 80;
    if 0 <= dx < 240 && dx % 80 == 0 && 0 <= dy && dy % 100 == 0
    then Some(dy / 100 * 3 + dx / 80)
    else None
  }

  /** Distinct pumpkins of a side spawn at distinct points: the grid position
      determines the index. */
  lemma SpawnPositionInjective(side: Side, index: nat)
    ensures SpawnIndex(side, SpawnPosition(side, index)) == Some(index)
  {
    var row, col := index / 3, index % 3;
    assert index == row * 3 + col;
    var dx, dy := col * 80, row * 100;
    assert dx % 80 == 0 && dx / 80 == col by {
      assert dx == 80 * col;
    }
    assert dy % 100 == 0 && dy / 100 == row by {
      assert dy == 100 * row;
    }
  }

  lemma SpawnPositionsDistinct(side: Side, side': Side, i: nat, j: nat)
    requires side != side' || i != j
    ensures SpawnPosition(side, i) != SpawnPosition(side', j)
  {
    if side == side' {
      SpawnPositionInjective(side, i);
      SpawnPositionInjective(side', j);
    }
  }

  // ---------------------------------------------------------------------------
  // Placement offsets

  /** `distanceFromCenter` for a slot: `-L*0.85 + slot*(L*0.1)` on the left and
      `L*0.85 - slot*(L*0.1)` on the right. With L = 400 the two products are
      exactly 340 and 40, so the offsets are integers. */
  function DistanceFromCenter(side: Side, slot: int): int {
    var outer := SeesawLength * 85 / 100;
    var step := SeesawLength / 10;
    if side == Left then -outer + slot * step else outer - slot * step
  }

  /** Left slots sit left of the pivot and right slots right of it, from 340 down to 60. */
  lemma DistanceSigns(side: Side, slot: int)
    requires 0 <= slot < SlotCount
    ensures side == Left ==> -340 <= DistanceFromCenter(side, slot) <= -60
    ensures side == Right ==> 60 <= DistanceFromCenter(side, slot) <= 340
    ensures DistanceFromCenter(Right, slot) == -DistanceFromCenter(Left, slot)
  {
  }

  /** Later slots are nearer the pivot, on both sides. */
  lemma DistanceShrinks(side: Side, s: int, t: int)
    requires 0 <= s < t < SlotCount
    ensures Abs(DistanceFromCenter(side, t)) < Abs(DistanceFromCenter(side, s))
  {
  }

  /** The baseline offset above the pivot: `-40 - (slot % 2) * 10`, alternating
      between -40 for even and -50 for odd slots. */
  function VerticalOffset(slot: int): (v: int)
    requires slot >= 0
    ensures v == -40 <==> slot % 2 == 0
    ensures v == -50 <==> slot % 2 == 1
  {
    -40 - (slot % 2) * 10
  }

  // ---------------------------------------------------------------------------
  // Tilt and status message

  function Min(a: int, b: int): int { if a < b then a else b }
  function Max(a: int, b: int): int { if a < b then b else a }

  /** `Math.max(Math.min(2 * (L - R), 30), -30)`. */
  function Tilt(leftWeight: int, rightWeight: int): (angle: int)
    ensures -MaxAngle <= angle <= MaxAngle
    ensures -MaxAngle <= 2 * (leftWeight - rightWeight) <= MaxAngle ==> angle == 2 * (leftWeight - rightWeight)
    ensures 2 * (leftWeight - rightWeight) > MaxAngle ==> angle == MaxAngle
    ensures 2 * (leftWeight - rightWeight) < -MaxAngle ==> angle == -MaxAngle
  {
    Max(Min((leftWeight - rightWeight) * 2, MaxAngle), -MaxAngle)
  }

  /** The angle effect's message: nearly balanced below 5 degrees with weight on
      both sides, else a warning at either clamp, else the message stays. */
  function AngleMessage(angle: int, leftWeight: int, rightWeight: int, current: Message): Message {
    if Abs(angle) < 5 && leftWeight > 0 && rightWeight > 0 then NearlyBalanced
    else if angle == MaxAngle then LeftTooHeavy
    else if angle == -MaxAngle then RightTooHeavy
    else current
  }

  /** The message after the angle effect, in terms of the weights alone. */
  lemma StatusMessageByWeights(leftWeight: int, rightWeight: int, current: Message)
    ensures var m := AngleMessage(Tilt(leftWeight, rightWeight), leftWeight, rightWeight, current);
      && (m == NearlyBalanced && current != NearlyBalanced
          <==> -2 <= leftWeight - rightWeight <= 2 && leftWeight > 0 && rightWeight > 0 && current != NearlyBalanced)
      && (leftWeight - rightWeight >= 15 ==> m == LeftTooHeavy)
      && (rightWeight - leftWeight >= 15 ==> m == RightTooHeavy)
      && (-15 < leftWeight - rightWeight < 15 && !(-2 <= leftWeight - rightWeight <= 2 && leftWeight > 0 && rightWeight > 0)
          ==> m == current)
  {
  }

  /** `isNowBalanced`. */
  predicate IsNowBalanced(angle: int, leftWeight: int, rightWeight: int) {
    Abs(angle) < 3 && leftWeight > 0 && rightWeight > 0
  }

  /** With the tilt of integer weights, balanced means the sides differ by at
      most 1 and both carry weight. */
  lemma BalancedIffWithinOne(leftWeight: int, rightWeight: int)
    ensures IsNowBalanced(Tilt(leftWeight, rightWeight), leftWeight, rightWeight)
        <==> -1 <= leftWeight - rightWeight <= 1 && leftWeight > 0 && rightWeight > 0
  {
  }

  /** The balance effect's trigger: balanced now, not balanced before, some
      pumpkin on the board, and no reward shown yet this round. */
  predicate RewardFires(angle: int, leftWeight: int, rightWeight: int, anyOnSeesaw: bool,
                        isBalanced: bool, hasShownReward: bool) {
    IsNowBalanced(angle, leftWeight, rightWeight) && !isBalanced && anyOnSeesaw && !hasShownReward
  }

  /** The balance effect on the render after a click, in the order the two
      effects are declared: the totals are new, but `seesawAngle` is still the
      tilt of the previous totals, because the angle effect runs after it. */
  predicate RewardFiresAsWritten(prevLeft: int, prevRight: int, leftWeight: int, rightWeight: int,
                                 anyOnSeesaw: bool, isBalanced: bool, hasShownReward: bool) {
    RewardFires(Tilt(prevLeft, prevRight), leftWeight, rightWeight, anyOnSeesaw, isBalanced, hasShownReward)
  }

  /** As written, the reward can fire on a board that is far from level: with 1
      on the left and nothing on the right the angle is 2; adding 5 on the right
      fires the reward while the new tilt is -8. */
  lemma StaleAngleFiresReward()
    ensures RewardFiresAsWritten(1, 0, 1, 5, true, false, false)
    ensures !IsNowBalanced(Tilt(1, 5), 1, 5) && Tilt(1, 5) == -8
  {
  }

  /** With the angle effect run first, the reward fires only when the totals
      differ by at most 1 and both sides carry weight. */
  lemma RewardFiresOnlyWhenLevel(leftWeight: int, rightWeight: int, anyOnSeesaw: bool,
                                 isBalanced: bool, hasShownReward: bool)
    ensures RewardFires(Tilt(leftWeight, rightWeight), leftWeight, rightWeight, anyOnSeesaw, isBalanced, hasShownReward)
        <==> -1 <= leftWeight - rightWeight <= 1 && leftWeight > 0 && rightWeight > 0
             && anyOnSeesaw && !isBalanced && !hasShownReward
  {
    BalancedIffWithinOne(leftWeight, rightWeight);
  }

  // ---------------------------------------------------------------------------
  // Slot choice (`findNextAvailableSlot`)

  /** `slots.findIndex(slot => !slot)`: the lowest free slot, if any. */
  function LowestFree(slots: seq<bool>): (r: Option<nat>)
    ensures r.Some? ==> r.value < |slots| && !slots[r.value]
  {
    if slots == [] then None
    else if !slots[0] then Some(0)
    else match LowestFree(slots[1..])
      case None => None
      case Some(k) => Some(k + 1)
  }

  /** `findIndex` finds nothing exactly when every slot is taken, and what it
      finds is the first free slot. */
  lemma {:induction false} LowestFreeIsFirst(slots: seq<bool>)
    ensures LowestFree(slots).None? <==> forall k :: 0 <= k < |slots| ==> slots[k]
    ensures LowestFree(slots).Some? ==> forall k :: 0 <= k < LowestFree(slots).value ==> slots[k]
  {
    if slots != [] && slots[0] {
      LowestFreeIsFirst(slots[1..]);
      assert forall k :: 1 <= k < |slots| ==> slots[k] == slots[1..][k - 1];
    }
  }

  /** The slot `findNextAvailableSlot` returns: the lowest free one, or, when
      all are taken, `Math.floor(roll * slots.length)`. */
  function NextSlot(slots: seq<bool>, roll: real): (slot: int)
    requires |slots| == SlotCount && IsRandom(roll)
    ensures 0 <= slot < |slots|
  {
    match LowestFree(slots)
    case Some(k) => k
    case None =>
      RandomIntInRange(roll, 0, SlotCount - 1);
      RandomInt(roll, 0, SlotCount - 1)
  }

  /** The slot array after the choice: the chosen slot is marked when it was
      free; an overflow slot is not marked. */
  function SlotsAfterChoice(slots: seq<bool>, roll: real): (r: seq<bool>)
    requires |slots| == SlotCount && IsRandom(roll)
    ensures |r| == |slots|
  {
    if LowestFree(slots).Some? then slots[NextSlot(slots, roll) := true] else slots
  }

  /** While a slot is free, `findNextAvailableSlot` returns the first free slot
      and marks it, changing no other slot. Once all are taken, it marks nothing. */
  lemma NextSlotChoice(slots: seq<bool>, roll: real)
    requires |slots| == SlotCount && IsRandom(roll)
    ensures (exists k :: 0 <= k < |slots| && !slots[k]) ==>
      && !slots[NextSlot(slots, roll)]
      && (forall k :: 0 <= k < NextSlot(slots, roll) ==> slots[k])
      && SlotsAfterChoice(slots, roll) == slots[NextSlot(slots, roll) := true]
    ensures (forall k :: 0 <= k < |slots| ==> slots[k]) ==> SlotsAfterChoice(slots, roll) == slots
  {
    LowestFreeIsFirst(slots);
  }

  /** `newSlots[k] = false` on a copy of the array. An index outside the array
      leaves its elements as they are. */
  function ClearSlot(slots: seq<bool>, k: int): (r: seq<bool>)
    ensures |r| == |slots|
    ensures forall j :: 0 <= j < |slots| ==> r[j] == (slots[j] && j != k)
  {
    if 0 <= k < |slots| then slots[k := false] else slots
  }

  /** `Array(8).fill(false)`. */
  function NoSlots(): (slots: seq<bool>)
    ensures |slots| == SlotCount && forall k :: 0 <= k < |slots| ==> !slots[k]
  {
    seq(SlotCount, _ => false)
  }

  // ---------------------------------------------------------------------------
  // The pumpkin list

  /** `find(pumpkin => pumpkin.id === id)`, as an index. */
  function IndexOfId(ps: seq<PumpkinData>, id: int): (r: Option<nat>)
    ensures r.Some? ==> r.value < |ps| && ps[r.value].id == id
  {
    if ps == [] then None
    else if ps[0].id == id then Some(0)
    else match IndexOfId(ps[1..], id)
      case None => None
      case Some(k) => Some(k + 1)
  }

  /** `find` fails exactly when no pumpkin has the id, and finds the first one that has it. */
  lemma {:induction false} IndexOfIdIsFirst(ps: seq<PumpkinData>, id: int)
    ensures IndexOfId(ps, id).None? <==> forall i :: 0 <= i < |ps| ==> ps[i].id != id
    ensures IndexOfId(ps, id).Some? ==> forall i :: 0 <= i < IndexOfId(ps, id).value ==> ps[i].id != id
  {
    if ps != [] && ps[0].id != id {
      IndexOfIdIsFirst(ps[1..], id);
      assert forall i :: 1 <= i < |ps| ==> ps[i] == ps[1..][i - 1];
    }
  }

  /** `filter(p => p.side === side).length`. */
  function CountSide(ps: seq<PumpkinData>, side: Side): nat {
    if ps == [] then 0
    else (if ps[0].side == side then 1 else 0) + CountSide(ps[1..], side)
  }

  /** `some(p => p.onSeesaw)`. */
  predicate AnyOnSeesaw(ps: seq<PumpkinData>) {
    exists i :: 0 <= i < |ps| && ps[i].onSeesaw
  }

  /** What a pumpkin contributes to the total of `side`. */
  function Load(p: PumpkinData, side: Side): int {
    if p.onSeesaw && p.side == side then p.weight else 0
  }

  /** The total weight of the pumpkins on one side of the board. */
  function PlacedWeight(ps: seq<PumpkinData>, side: Side): int {
    if ps == [] then 0 else Load(ps[0], side) + PlacedWeight(ps[1..], side)
  }

  /** The side-relative index the return position uses: `id - 1` on the left,
      `id - leftCount - 1` on the right. */
  function ReturnIndex(ps: seq<PumpkinData>, p: PumpkinData): int {
    if p.side == Left then p.id - 1 else p.id - CountSide(ps, Left) - 1
  }

  /** The pumpkin after placement in `slot`; `x`, `y` are its rotated position. */
  function Placed(p: PumpkinData, slot: int, x: int, y: int): PumpkinData
    requires slot >= 0
  {
    p.(x := x, y := y, onSeesaw := true,
       seesawPosition := Some(SeesawPosition(DistanceFromCenter(p.side, slot), SeesawCenterY + VerticalOffset(slot), slot)))
  }

  /** The pumpkin after removal, back at `pos`. */
  function Returned(p: PumpkinData, pos: (int, int)): PumpkinData {
    p.(x := pos.0, y := pos.1, onSeesaw := false, seesawPosition := None)
  }

  /** The pumpkin sits on `side` of the board in slot `k`. */
  predicate HoldsSlot(p: PumpkinData, side: Side, k: int) {
    p.onSeesaw && p.side == side && p.seesawPosition.Some? && p.seesawPosition.value.slotIndex == k
  }

  // ---------------------------------------------------------------------------
  // A click, as a step on the board

  /** The part of the component's state a click changes (the message aside). */
  datatype Board = Board(pumpkins: seq<PumpkinData>, leftWeight: int, rightWeight: int,
                         leftSlots: seq<bool>, rightSlots: seq<bool>)
  {
    function Slots(side: Side): seq<bool> {
      if side == Left then leftSlots else rightSlots
    }

    function Weight(side: Side): int {
      if side == Left then leftWeight else rightWeight
    }

    /** Both slot arrays have the 8 entries `Array(8)` gives them. */
    predicate SlotsSized() {
      |leftSlots| == SlotCount && |rightSlots| == SlotCount
    }
  }

  /** The board of a new round: no weight, every slot free. */
  function Initial(ps: seq<PumpkinData>): (b: Board)
    ensures b.SlotsSized()
  {
    Board(ps, 0, 0, NoSlots(), NoSlots())
  }

  /** The removal branch: a pumpkin with a seesaw position frees its slot and
      leaves its side's total; whatever its position, it goes back to its spawn
      point and off the board. */
  function RemoveStep(b: Board, i: nat): (r: Board)
    requires i < |b.pumpkins|
    ensures b.SlotsSized() ==> r.SlotsSized()
    ensures |r.pumpkins| == |b.pumpkins|
    ensures forall j :: 0 <= j < |b.pumpkins| && j != i ==> r.pumpkins[j] == b.pumpkins[j]
    ensures var p, q := b.pumpkins[i], r.pumpkins[i];
      && q.id == p.id && q.side == p.side && q.weight == p.weight && q.size == p.size
      && !q.onSeesaw && q.seesawPosition.None?
      && (q.x, q.y) == SpawnPosition(p.side, ReturnIndex(b.pumpkins, p))
    ensures var side := b.pumpkins[i].side;
      r.Weight(Other(side)) == b.Weight(Other(side)) && r.Slots(Other(side)) == b.Slots(Other(side))
    ensures var p := b.pumpkins[i];
      match p.seesawPosition
      case Some(sp) => r.Weight(p.side) == b.Weight(p.side) - p.weight && r.Slots(p.side) == ClearSlot(b.Slots(p.side), sp.slotIndex)
      case None => r.Weight(p.side) == b.Weight(p.side) && r.Slots(p.side) == b.Slots(p.side)
  {
    var p := b.pumpkins[i];
    var ps := b.pumpkins[i := Returned(p, SpawnPosition(p.side, ReturnIndex(b.pumpkins, p)))];
    match p.seesawPosition
    case None => b.(pumpkins := ps)
    case Some(sp) =>
      if p.side == Left then Board(ps, b.leftWeight - p.weight, b.rightWeight, ClearSlot(b.leftSlots, sp.slotIndex), b.rightSlots)
      else Board(ps, b.leftWeight, b.rightWeight - p.weight, b.leftSlots, ClearSlot(b.rightSlots, sp.slotIndex))
  }

  /** The placement branch: the pumpkin takes the slot `findNextAvailableSlot`
      chooses on its side, joins that side's total and moves to `(x, y)`. */
  function PlaceStep(b: Board, i: nat, roll: real, x: int, y: int): (r: Board)
    requires i < |b.pumpkins| && b.SlotsSized() && IsRandom(roll)
    ensures r.SlotsSized()
    ensures |r.pumpkins| == |b.pumpkins|
    ensures forall j :: 0 <= j < |b.pumpkins| && j != i ==> r.pumpkins[j] == b.pumpkins[j]
    ensures var p, q := b.pumpkins[i], r.pumpkins[i];
      && q.id == p.id && q.side == p.side && q.weight == p.weight && q.size == p.size
      && (q.x, q.y) == (x, y)
      && HoldsSlot(q, p.side, NextSlot(b.Slots(p.side), roll))
    ensures var p := b.pumpkins[i];
      && r.Weight(p.side) == b.Weight(p.side) + p.weight
      && r.Slots(p.side) == SlotsAfterChoice(b.Slots(p.side), roll)
      && r.Weight(Other(p.side)) == b.Weight(Other(p.side))
      && r.Slots(Other(p.side)) == b.Slots(Other(p.side))
  {
    var p := b.pumpkins[i];
    var ps := b.pumpkins[i := Placed(p, NextSlot(b.Slots(p.side), roll), x, y)];
    if p.side == Left then Board(ps, b.leftWeight + p.weight, b.rightWeight, SlotsAfterChoice(b.leftSlots, roll), b.rightSlots)
    else Board(ps, b.leftWeight, b.rightWeight + p.weight, b.leftSlots, SlotsAfterChoice(b.rightSlots, roll))
  }

  /** One click: the id clicked, the `Math.random()` draw an overflow placement
      uses, and the rotated position the placed pumpkin is drawn at. */
  datatype ClickInput = ClickInput(id: int, roll: real, placedX: int, placedY: int)

  /** `handlePumpkinClick(id)` on the board: an unknown id changes nothing, a
      pumpkin on the board is removed, one off it is placed. */
  function ClickStep(b: Board, c: ClickInput): (r: Board)
    requires b.SlotsSized() && IsRandom(c.roll)
    ensures r.SlotsSized()
    ensures IndexOfId(b.pumpkins, c.id).None? ==> r == b
    ensures IndexOfId(b.pumpkins, c.id).Some? ==>
      var i := IndexOfId(b.pumpkins, c.id).value;
      var side := b.pumpkins[i].side;
      && |r.pumpkins| == |b.pumpkins|
      && (forall j :: 0 <= j < |b.pumpkins| && j != i ==> r.pumpkins[j] == b.pumpkins[j])
      && r.pumpkins[i].id == c.id && r.pumpkins[i].side == side
      && r.pumpkins[i].onSeesaw == !b.pumpkins[i].onSeesaw
      && r.Weight(Other(side)) == b.Weight(Other(side)) && r.Slots(Other(side)) == b.Slots(Other(side))
  {
    match IndexOfId(b.pumpkins, c.id)
    case None => b
    case Some(i) =>
      if b.pumpkins[i].onSeesaw then RemoveStep(b, i) else PlaceStep(b, i, c.roll, c.placedX, c.placedY)
  }

  /** The message a click leaves: what was added or removed, and on which side;
      a removal without a seesaw position, or an unknown id, keeps the message. */
  function ClickMessage(b: Board, c: ClickInput, current: Message): Message {
    match IndexOfId(b.pumpkins, c.id)
    case None => current
    case Some(i) =>
      var p := b.pumpkins[i];
      if !p.onSeesaw then Added(p.side, p.weight)
      else if p.seesawPosition.Some? then Removed(p.side, p.weight)
      else current
  }

  /** This click places a pumpkin on `side` while every slot there is taken. */
  predicate ClickOverflows(b: Board, c: ClickInput, side: Side) {
    match IndexOfId(b.pumpkins, c.id)
    case None => false
    case Some(i) =>
      !b.pumpkins[i].onSeesaw && b.pumpkins[i].side == side && LowestFree(b.Slots(side)).None?
  }

  /** `boards` lists the boards the clicks `cs` pass through: each click takes
      the board before it to the board after it. */
  ghost predicate IsTrace(boards: seq<Board>, cs: seq<ClickInput>) {
    && |boards| == |cs| + 1
    && (forall j {:trigger cs[j]} :: 0 <= j < |cs| ==>
          boards[j].SlotsSized() && IsRandom(cs[j].roll) && boards[j + 1] == ClickStep(boards[j], cs[j]))
  }

  /** One of the first `n` clicks placed a pumpkin on `side` while that side was full. */
  ghost predicate OverflowedBy(boards: seq<Board>, cs: seq<ClickInput>, n: nat, side: Side)
    requires |boards| == |cs| + 1 && n <= |cs|
  {
    exists j :: 0 <= j < n && ClickOverflows(boards[j], cs[j], side)
  }

  /** A trace extended by one more click is a trace. */
  lemma TraceSnoc(boards: seq<Board>, cs: seq<ClickInput>, c: ClickInput)
    requires IsTrace(boards, cs) && boards[|cs|].SlotsSized() && IsRandom(c.roll)
    ensures IsTrace(boards + [ClickStep(boards[|cs|], c)], cs + [c])
  {
    var boards', cs' := boards + [ClickStep(boards[|cs|], c)], cs + [c];
    forall j | 0 <= j < |cs'|
      ensures boards'[j].SlotsSized() && IsRandom(cs'[j].roll) && boards'[j + 1] == ClickStep(boards'[j], cs'[j])
    {
      if j < |cs| {
        assert cs'[j] == cs[j];
      }
    }
  }

  // ---------------------------------------------------------------------------
  // Generating a round (`generateRandomPumpkins`)

  /** The two `Math.random()` draws made for one pumpkin: size first, then weight. */
  datatype PumpkinRolls = PumpkinRolls(size: real, weight: real)

  /** All draws of one round, in the order the source makes them. */
  datatype RoundRolls = RoundRolls(leftCount: real, left: seq<PumpkinRolls>, rightCount: real, right: seq<PumpkinRolls>)

  predicate RollsValid(rolls: seq<PumpkinRolls>) {
    forall i :: 0 <= i < |rolls| ==> IsRandom(rolls[i].size) && IsRandom(rolls[i].weight)
  }

  /** The number of left pumpkins, `Math.floor(r * (max - min + 1) + min)`, taken
      as the exact-real draw `RandomInt`. */
  function LeftCount(s: GameSettings, rr: RoundRolls): int {
    RandomInt(rr.leftCount, s.leftPumpkinsMin, s.leftPumpkinsMax)
  }

  /** The number of right pumpkins, drawn like `LeftCount`. */
  function RightCount(s: GameSettings, rr: RoundRolls): int {
    RandomInt(rr.rightCount, s.rightPumpkinsMin, s.rightPumpkinsMax)
  }

  /** The draws are values `Math.random()` can return, one pair per pumpkin made. */
  predicate RollsFit(s: GameSettings, rr: RoundRolls) {
    && IsRandom(rr.leftCount) && IsRandom(rr.rightCount)
    && RollsValid(rr.left) && RollsValid(rr.right)
    && |rr.left| >= LeftCount(s, rr) && |rr.right| >= RightCount(s, rr)
  }

  /** One new pumpkin: desktop size `60 + floor(r * 60)`, weight drawn from the
      settings' range, at its spawn point, not on the board. */
  function Spawned(s: GameSettings, id: int, side: Side, index: nat, roll: PumpkinRolls): PumpkinData {
    var pos := SpawnPosition(side, index);
    PumpkinData(id, pos.0, pos.1, RandomInt(roll.size, 60, 119),
                RandomInt(roll.weight, s.minWeight, s.maxWeight), side, false, None)
  }

  /** The round the generator builds: `leftCount` left pumpkins with ids from 1,
      then `rightCount` right ones with ids from `leftCount + 1`. */
  function Round(s: GameSettings, rr: RoundRolls): seq<PumpkinData>
    requires RollsFit(s, rr)
  {
    var lc := LeftCount(s, rr);
    var rc := RightCount(s, rr);
    SideRound(s, Left, if lc < 0 then 0 else lc, 1, rr.left)
    + SideRound(s, Right, if rc < 0 then 0 else rc, lc + 1, rr.right)
  }

  /** The `n` pumpkins of one side, with ids from `firstId`. */
  function SideRound(s: GameSettings, side: Side, n: nat, firstId: int, rolls: seq<PumpkinRolls>): (r: seq<PumpkinData>)
    requires n <= |rolls|
    ensures |r| == n
  {
    seq(n, i requires 0 <= i < n => Spawned(s, firstId + i, side, i, rolls[i]))
  }

  /** `generateRandomPumpkins`: the two `for` loops push into the left and right lists. */
  method GenerateRandomPumpkins(s: GameSettings, rr: RoundRolls) returns (ps: seq<PumpkinData>)
    requires RollsFit(s, rr)
    ensures ps == Round(s, rr)
  {
    var leftCount := RandomInt(rr.leftCount, s.leftPumpkinsMin, s.leftPumpkinsMax);
    var leftPumpkins: seq<PumpkinData> := [];
    var i := 0;
    while i < leftCount
      invariant 0 <= i && (leftCount >= 0 ==> i <= leftCount) && (leftCount < 0 ==> i == 0)
      invariant |leftPumpkins| == i
      invariant forall k :: 0 <= k < i ==> leftPumpkins[k] == Spawned(s, k + 1, Left, k, rr.left[k])
    {
      var position := SpawnPosition(Left, i);
      var size := RandomInt(rr.left[i].size, 60, 119);
      var weight := RandomInt(rr.left[i].weight, s.minWeight, s.maxWeight);
      leftPumpkins := leftPumpkins + [PumpkinData(i + 1, position.0, position.1, size, weight, Left, false, None)];
      i := i + 1;
    }
    assert leftPumpkins == SideRound(s, Left, i, 1, rr.left);
    var rightCount := RandomInt(rr.rightCount, s.rightPumpkinsMin, s.rightPumpkinsMax);
    var rightPumpkins: seq<PumpkinData> := [];
    i := 0;
    while i < rightCount
      invariant 0 <= i && (rightCount >= 0 ==> i <= rightCount) && (rightCount < 0 ==> i == 0)
      invariant |rightPumpkins| == i
      invariant forall k :: 0 <= k < i ==> rightPumpkins[k] == Spawned(s, leftCount + k + 1, Right, k, rr.right[k])
    {
      var position := SpawnPosition(Right, i);
      var size := RandomInt(rr.right[i].size, 60, 119);
      var weight := RandomInt(rr.right[i].weight, s.minWeight, s.maxWeight);
      rightPumpkins := rightPumpkins + [PumpkinData(leftCount + i + 1, position.0, position.1, size, weight, Right, false, None)];
      i := i + 1;
    }
    assert rightPumpkins == SideRound(s, Right, i, leftCount + 1, rr.right);
    ps := leftPumpkins + rightPumpkins;
  }

  /** The pumpkin at each index of a round, and the round's length. */
  lemma RoundAt(s: GameSettings, rr: RoundRolls, i: nat)
    requires IsValid(s) && RollsFit(s, rr)
    ensures s.leftPumpkinsMin <= LeftCount(s, rr) <= s.leftPumpkinsMax
    ensures s.rightPumpkinsMin <= RightCount(s, rr) <= s.rightPumpkinsMax
    ensures |Round(s, rr)| == LeftCount(s, rr) + RightCount(s, rr)
    ensures i < LeftCount(s, rr) ==> Round(s, rr)[i] == Spawned(s, i + 1, Left, i, rr.left[i])
    ensures LeftCount(s, rr) <= i < |Round(s, rr)| ==>
      Round(s, rr)[i] == Spawned(s, i + 1, Right, i - LeftCount(s, rr), rr.right[i - LeftCount(s, rr)])
  {
    RandomIntInRange(rr.leftCount, s.leftPumpkinsMin, s.leftPumpkinsMax);
    RandomIntInRange(rr.rightCount, s.rightPumpkinsMin, s.rightPumpkinsMax);
  }

  /** Valid settings make every draw of the generator positive: at least one
      pumpkin a side and every weight at least 1. */
  lemma ValidSettingsDrawPositive(s: GameSettings, r: real)
    requires IsValid(s) && IsRandom(r)
    ensures RandomInt(r, s.leftPumpkinsMin, s.leftPumpkinsMax) >= 1
    ensures RandomInt(r, s.rightPumpkinsMin, s.rightPumpkinsMax) >= 1
    ensures RandomInt(r, s.minWeight, s.maxWeight) >= 1
  {
    RandomIntInRange(r, s.leftPumpkinsMin, s.leftPumpkinsMax);
    RandomIntInRange(r, s.rightPumpkinsMin, s.rightPumpkinsMax);
    RandomIntInRange(r, s.minWeight, s.maxWeight);
  }

  /** The board a round starts from: a round drawn with valid settings, no
      weight, every slot free. */
  ghost predicate FreshRound(b: Board) {
    exists s: GameSettings, rr: RoundRolls ::
      IsValid(s) && RollsFit(s, rr) && b == Initial(Round(s, rr))
  }
}
