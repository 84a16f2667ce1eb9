/** What stays true of the board of components/pumpkin-game.tsx from round to
    round: the pumpkins keep the ids and sides the generator gave them, each
    pumpkin's placement data agree with its flag, each side's total is the
    weight its placed pumpkins carry, and the slot arrays track which slots are
    held. Every click keeps this, so every board a round reaches has it. */
module SeesawInvariant {
  import opened Wrappers
  import opened Randomness
  import opened Settings
  import opened Seesaw
  import Pumpkin

  /** The list is a round as generated: ids 1, 2, ... in order, left pumpkins first. */
  ghost predicate WellFormedRound(ps: seq<PumpkinData>) {
    && (forall i :: 0 <= i < |ps| ==> ps[i].id == i + 1)
    && (forall i :: 0 <= i < |ps| ==> (ps[i].side == Left <==> i < CountSide(ps, Left)))
  }

  /** A pumpkin's placement data agree with its flag and its slot, and an
      unplaced pumpkin stands at its spawn point. */
  ghost predicate PumpkinConsistent(ps: seq<PumpkinData>, p: PumpkinData) {
    && (p.onSeesaw <==> p.seesawPosition.Some?)
    && (p.seesawPosition.Some? ==>
          var sp := p.seesawPosition.value;
          && 0 <= sp.slotIndex < SlotCount
          && sp.distanceFromCenter == DistanceFromCenter(p.side, sp.slotIndex)
          && sp.baseY == SeesawCenterY + VerticalOffset(sp.slotIndex))
    && (!p.onSeesaw ==> ReturnIndex(ps, p) >= 0 && (p.x, p.y) == SpawnPosition(p.side, ReturnIndex(ps, p)))
  }

  ghost predicate AllConsistent(ps: seq<PumpkinData>) {
    forall i :: 0 <= i < |ps| ==> PumpkinConsistent(ps, ps[i])
  }

  /** The number of pumpkins that sit on `side` in slot `k`. */
  function Holders(ps: seq<PumpkinData>, side: Side, k: int): nat {
    if ps == [] then 0 else (if HoldsSlot(ps[0], side, k) then 1 else 0) + Holders(ps[1..], side, k)
  }

  /** How a side's slot array relates to the pumpkins on that side. A marked
      slot is always held by some pumpkin. Until an overflow placement has shared
      a slot, the relation is exact: a marked slot has exactly one holder and an
      unmarked one has none. */
  ghost predicate SlotsTrack(ps: seq<PumpkinData>, side: Side, slots: seq<bool>, overflowed: bool) {
    && |slots| == SlotCount
    && (forall k :: 0 <= k < |slots| && slots[k] ==> Holders(ps, side, k) > 0)
    && (!overflowed ==> forall k :: 0 <= k < |slots| ==> Holders(ps, side, k) == (if slots[k] then 1 else 0))
  }

  /** One side of the board: its total is the weight of its placed pumpkins and
      its slot array tracks them. */
  ghost predicate SideValid(ps: seq<PumpkinData>, side: Side, weight: int, slots: seq<bool>, overflowed: bool) {
    weight == PlacedWeight(ps, side) && SlotsTrack(ps, side, slots, overflowed)
  }

  /** The board invariant; `leftOverflowed` and `rightOverflowed` say whether
      a placement on that side has found every slot taken this round. */
  ghost predicate BoardValid(b: Board, leftOverflowed: bool, rightOverflowed: bool) {
    && WellFormedRound(b.pumpkins)
    && AllConsistent(b.pumpkins)
    && SideValid(b.pumpkins, Left, b.leftWeight, b.leftSlots, leftOverflowed)
    && SideValid(b.pumpkins, Right, b.rightWeight, b.rightSlots, rightOverflowed)
  }

  // ---------------------------------------------------------------------------
  // Facts about the list functions

  /** A slot with a holder has a pumpkin in it; without one, no pumpkin holds it. */
  lemma {:induction false} HoldersMeaning(ps: seq<PumpkinData>, side: Side, k: int)
    ensures Holders(ps, side, k) > 0 <==> exists i :: 0 <= i < |ps| && HoldsSlot(ps[i], side, k)
  {
    if ps != [] {
      HoldersMeaning(ps[1..], side, k);
      if Holders(ps[1..], side, k) > 0 {
        var i :| 0 <= i < |ps[1..]| && HoldsSlot(ps[1..][i], side, k);
        assert HoldsSlot(ps[i + 1], side, k);
      }
      if exists i :: 0 <= i < |ps| && HoldsSlot(ps[i], side, k) {
        var i :| 0 <= i < |ps| && HoldsSlot(ps[i], side, k);
        if i > 0 {
          assert HoldsSlot(ps[1..][i - 1], side, k);
        }
      }
    }
  }

  /** Replacing one pumpkin changes a slot's holder count by what the two contribute. */
  lemma {:induction false} HoldersUpdate(ps: seq<PumpkinData>, i: nat, q: PumpkinData, side: Side, k: int)
    requires i < |ps|
    ensures Holders(ps[i := q], side, k)
         == Holders(ps, side, k) - (if HoldsSlot(ps[i], side, k) then 1 else 0) + (if HoldsSlot(q, side, k) then 1 else 0)
  {
    if i > 0 {
      assert ps[i := q][1..] == ps[1..][i - 1 := q];
      HoldersUpdate(ps[1..], i - 1, q, side, k);
    } else {
      assert ps[i := q][1..] == ps[1..];
    }
  }

  lemma {:induction false} CountSideUpdate(ps: seq<PumpkinData>, i: nat, q: PumpkinData, side: Side)
    requires i < |ps| && q.side == ps[i].side
    ensures CountSide(ps[i := q], side) == CountSide(ps, side)
  {
    if i > 0 {
      assert ps[i := q][1..] == ps[1..][i - 1 := q];
      CountSideUpdate(ps[1..], i - 1, q, side);
    } else {
      assert ps[i := q][1..] == ps[1..];
    }
  }

  /** Replacing one pumpkin changes a side's total by the difference of the two loads. */
  lemma {:induction false} PlacedWeightUpdate(ps: seq<PumpkinData>, i: nat, q: PumpkinData, side: Side)
    requires i < |ps|
    ensures PlacedWeight(ps[i := q], side) == PlacedWeight(ps, side) - Load(ps[i], side) + Load(q, side)
  {
    if i > 0 {
      assert ps[i := q][1..] == ps[1..][i - 1 := q];
      PlacedWeightUpdate(ps[1..], i - 1, q, side);
    } else {
      assert ps[i := q][1..] == ps[1..];
    }
  }

  /** A side that carries weight has a pumpkin on the board, so the balance
      effect's `hasSeesawPumpkins` test is implied by its weight tests. */
  lemma {:induction false} WeightMeansPumpkinOnBoard(ps: seq<PumpkinData>, side: Side)
    requires PlacedWeight(ps, side) != 0
    ensures AnyOnSeesaw(ps)
  {
    if Load(ps[0], side) == 0 {
      WeightMeansPumpkinOnBoard(ps[1..], side);
      var i :| 0 <= i < |ps[1..]| && ps[1..][i].onSeesaw;
      assert ps[i + 1].onSeesaw;
    } else {
      assert ps[0].onSeesaw;
    }
  }

  /** With no pumpkin on the board, no side carries weight and no slot has a holder. */
  lemma {:induction false} NothingPlacedNoWeight(ps: seq<PumpkinData>, side: Side)
    requires forall i :: 0 <= i < |ps| ==> !ps[i].onSeesaw
    ensures PlacedWeight(ps, side) == 0
    ensures forall k :: Holders(ps, side, k) == 0
  {
    if ps != [] {
      NothingPlacedNoWeight(ps[1..], side);
    }
  }

  /** A list whose first `k` pumpkins are exactly its left ones has `k` left pumpkins. */
  lemma {:induction false} CountSideOfBlocks(ps: seq<PumpkinData>, k: nat)
    requires k <= |ps|
    requires forall i :: 0 <= i < |ps| ==> (ps[i].side == Left <==> i < k)
    ensures CountSide(ps, Left) == k
  {
    if ps != [] {
      CountSideOfBlocks(ps[1..], if k > 0 then k - 1 else 0);
    }
  }

  /** Replacing a pumpkin by a consistent one with the same id and side keeps
      the round well formed and consistent. */
  lemma WellFormedUpdate(ps: seq<PumpkinData>, i: nat, q: PumpkinData)
    requires WellFormedRound(ps) && AllConsistent(ps)
    requires i < |ps| && q.id == ps[i].id && q.side == ps[i].side
    requires PumpkinConsistent(ps, q)
    ensures WellFormedRound(ps[i := q]) && AllConsistent(ps[i := q])
  {
    CountSideUpdate(ps, i, q, Left);
    var ps' := ps[i := q];
    forall j | 0 <= j < |ps'|
      ensures PumpkinConsistent(ps', ps'[j])
    {
      assert ReturnIndex(ps', ps'[j]) == ReturnIndex(ps, ps'[j]);
    }
  }

  /** In a well-formed round the pumpkin with id `id` is the one at index `id - 1`,
      and it is the only one with that id, so the source's `map` over the list
      changes that pumpkin alone. */
  lemma IndexOfIdInRound(ps: seq<PumpkinData>, id: int)
    requires WellFormedRound(ps)
    ensures IndexOfId(ps, id) == if 1 <= id <= |ps| then Some(id - 1) else None
    ensures forall j :: 0 <= j < |ps| && ps[j].id == id ==> j == id - 1
  {
    IndexOfIdIsFirst(ps, id);
    if 1 <= id <= |ps| {
      assert ps[id - 1].id == id;
    }
  }

  /** A click changes only the pumpkin whose id was clicked, and the total and
      slots of that pumpkin's side; a click on an id outside the round changes nothing. */
  lemma OnePumpkinPerClick(b: Board, c: ClickInput)
    requires WellFormedRound(b.pumpkins) && b.SlotsSized() && IsRandom(c.roll)
    ensures |ClickStep(b, c).pumpkins| == |b.pumpkins|
    ensures forall j :: 0 <= j < |b.pumpkins| && b.pumpkins[j].id != c.id ==> ClickStep(b, c).pumpkins[j] == b.pumpkins[j]
    ensures !(1 <= c.id <= |b.pumpkins|) ==> ClickStep(b, c) == b
    ensures 1 <= c.id <= |b.pumpkins| ==>
      var side := b.pumpkins[c.id - 1].side;
      ClickStep(b, c).Weight(Other(side)) == b.Weight(Other(side)) && ClickStep(b, c).Slots(Other(side)) == b.Slots(Other(side))
  {
    IndexOfIdInRound(b.pumpkins, c.id);
  }

  // ---------------------------------------------------------------------------
  // Slot tracking under the two branches

  lemma TrackOtherSide(ps: seq<PumpkinData>, i: nat, q: PumpkinData, side: Side, slots: seq<bool>, overflowed: bool)
    requires i < |ps| && SlotsTrack(ps, side, slots, overflowed)
    requires ps[i].side != side && q.side != side
    ensures SlotsTrack(ps[i := q], side, slots, overflowed)
  {
    forall k | 0 <= k < |slots|
      ensures Holders(ps[i := q], side, k) == Holders(ps, side, k)
    {
      HoldersUpdate(ps, i, q, side, k);
    }
  }

  /** Placing a pumpkin in the lowest free slot keeps the tracking exact; an
      overflow placement keeps only its first half. */
  lemma TrackAfterPlace(ps: seq<PumpkinData>, i: nat, q: PumpkinData, side: Side, slots: seq<bool>,
                        overflowed: bool, roll: real)
    requires i < |ps| && SlotsTrack(ps, side, slots, overflowed) && IsRandom(roll)
    requires !ps[i].onSeesaw && HoldsSlot(q, side, NextSlot(slots, roll))
    ensures SlotsTrack(ps[i := q], side, SlotsAfterChoice(slots, roll),
                       overflowed || LowestFree(slots).None?)
  {
    var k := NextSlot(slots, roll);
    NextSlotChoice(slots, roll);
    LowestFreeIsFirst(slots);
    forall k' | 0 <= k' < |slots|
      ensures Holders(ps[i := q], side, k') == Holders(ps, side, k') + (if k' == k then 1 else 0)
    {
      HoldersUpdate(ps, i, q, side, k');
    }
  }

  /** Removing the pumpkin that holds slot `k` and clearing `k` keeps the tracking. */
  lemma TrackAfterRemove(ps: seq<PumpkinData>, i: nat, q: PumpkinData, side: Side, slots: seq<bool>,
                         overflowed: bool, k: nat)
    requires i < |ps| && SlotsTrack(ps, side, slots, overflowed) && k < |slots|
    requires HoldsSlot(ps[i], side, k) && !q.onSeesaw
    ensures SlotsTrack(ps[i := q], side, ClearSlot(slots, k), overflowed)
  {
    var ps', slots' := ps[i := q], ClearSlot(slots, k);
    forall k' | 0 <= k' < |slots|
      ensures Holders(ps', side, k') == Holders(ps, side, k') - (if k' == k then 1 else 0)
    {
      HoldersUpdate(ps, i, q, side, k');
    }
    forall k' | 0 <= k' < |slots'| && slots'[k']
      ensures Holders(ps', side, k') > 0
    {
      assert k' != k && slots[k'];
    }
    if !overflowed {
      forall k' | 0 <= k' < |slots'|
        ensures Holders(ps', side, k') == (if slots'[k'] then 1 else 0)
      {
        if k' == k {
          assert Holders(ps, side, k) >= 1;
        }
      }
    }
  }

  lemma PlaceKeepsSide(ps: seq<PumpkinData>, i: nat, q: PumpkinData, side: Side, weight: int,
                       slots: seq<bool>, overflowed: bool, roll: real)
    requires i < |ps| && SideValid(ps, side, weight, slots, overflowed) && IsRandom(roll)
    requires !ps[i].onSeesaw && ps[i].side == side
    requires q.weight == ps[i].weight && HoldsSlot(q, side, NextSlot(slots, roll))
    ensures SideValid(ps[i := q], side, weight + ps[i].weight, SlotsAfterChoice(slots, roll),
                      overflowed || LowestFree(slots).None?)
  {
    PlacedWeightUpdate(ps, i, q, side);
    TrackAfterPlace(ps, i, q, side, slots, overflowed, roll);
  }

  lemma RemoveKeepsSide(ps: seq<PumpkinData>, i: nat, q: PumpkinData, side: Side, weight: int,
                        slots: seq<bool>, overflowed: bool, k: nat)
    requires i < |ps| && SideValid(ps, side, weight, slots, overflowed)
    requires HoldsSlot(ps[i], side, k) && k < SlotCount && !q.onSeesaw
    ensures SideValid(ps[i := q], side, weight - ps[i].weight, ClearSlot(slots, k), overflowed)
  {
    PlacedWeightUpdate(ps, i, q, side);
    TrackAfterRemove(ps, i, q, side, slots, overflowed, k);
  }

  lemma OtherSideKeeps(ps: seq<PumpkinData>, i: nat, q: PumpkinData, side: Side, weight: int,
                       slots: seq<bool>, overflowed: bool)
    requires i < |ps| && SideValid(ps, side, weight, slots, overflowed)
    requires ps[i].side != side && q.side != side
    ensures SideValid(ps[i := q], side, weight, slots, overflowed)
  {
    PlacedWeightUpdate(ps, i, q, side);
    TrackOtherSide(ps, i, q, side, slots, overflowed);
  }

  // ---------------------------------------------------------------------------
  // The invariant holds from the start of a round and after every click

  /** A round lists its left pumpkins first, with ids 1, 2, ..., none of them on the board. */
  lemma RoundShape(s: GameSettings, rr: RoundRolls)
    requires IsValid(s) && RollsFit(s, rr)
    ensures var ps := Round(s, rr);
      && |ps| == LeftCount(s, rr) + RightCount(s, rr)
      && CountSide(ps, Left) == LeftCount(s, rr)
      && WellFormedRound(ps)
      && (forall i :: 0 <= i < |ps| ==> !ps[i].onSeesaw)
  {
    RoundAt(s, rr, 0);
    var ps := Round(s, rr);
    var lc := LeftCount(s, rr);
    forall i | 0 <= i < |ps|
      ensures ps[i].id == i + 1 && (ps[i].side == Left <==> i < lc) && !ps[i].onSeesaw
    {
      RoundAt(s, rr, i);
    }
    CountSideOfBlocks(ps, lc);
  }

  /** Every weight of a round lies in the settings' weight range and every size in [60, 120). */
  lemma RoundRanges(s: GameSettings, rr: RoundRolls)
    requires IsValid(s) && RollsFit(s, rr)
    ensures var ps := Round(s, rr);
      forall i :: 0 <= i < |ps| ==> s.minWeight <= ps[i].weight <= s.maxWeight && 60 <= ps[i].size < 120
  {
    var ps := Round(s, rr);
    var lc := LeftCount(s, rr);
    forall i | 0 <= i < |ps|
      ensures s.minWeight <= ps[i].weight <= s.maxWeight && 60 <= ps[i].size < 120
    {
      RoundAt(s, rr, i);
      var roll := if i < lc then rr.left[i] else rr.right[i - lc];
      RandomIntInRange(roll.weight, s.minWeight, s.maxWeight);
      RandomIntInRange(roll.size, 60, 119);
    }
  }

  /** Every pumpkin of a round stands at the spawn point its return index names. */
  lemma RoundConsistent(s: GameSettings, rr: RoundRolls)
    requires IsValid(s) && RollsFit(s, rr)
    ensures AllConsistent(Round(s, rr))
  {
    RoundShape(s, rr);
    var ps := Round(s, rr);
    var lc := LeftCount(s, rr);
    forall i | 0 <= i < |ps|
      ensures PumpkinConsistent(ps, ps[i])
    {
      RoundAt(s, rr, i);
      assert ReturnIndex(ps, ps[i]) == if i < lc then i else i - lc;
    }
  }

  /** With valid settings a round has between min and max pumpkins a side,
      consecutive ids from 1 with the left side first, every weight within the
      weight range, sizes in [60, 120), and every pumpkin off the board at its
      spawn point. */
  lemma RoundProperties(s: GameSettings, rr: RoundRolls)
    requires IsValid(s) && RollsFit(s, rr)
    ensures s.leftPumpkinsMin <= LeftCount(s, rr) <= s.leftPumpkinsMax
    ensures s.rightPumpkinsMin <= RightCount(s, rr) <= s.rightPumpkinsMax
    ensures var ps := Round(s, rr);
      && |ps| == LeftCount(s, rr) + RightCount(s, rr)
      && CountSide(ps, Left) == LeftCount(s, rr)
      && WellFormedRound(ps)
      && AllConsistent(ps)
      && (forall i :: 0 <= i < |ps| ==> !ps[i].onSeesaw)
      && (forall i :: 0 <= i < |ps| ==> s.minWeight <= ps[i].weight <= s.maxWeight && 60 <= ps[i].size < 120)
  {
    RoundAt(s, rr, 0);
    RoundShape(s, rr);
    RoundRanges(s, rr);
    RoundConsistent(s, rr);
  }

  /** A freshly generated round, with empty slots and zero totals, is a valid board. */
  lemma FreshBoard(s: GameSettings, rr: RoundRolls)
    requires IsValid(s) && RollsFit(s, rr)
    ensures BoardValid(Initial(Round(s, rr)), false, false)
  {
    RoundProperties(s, rr);
    NothingPlacedNoWeight(Round(s, rr), Left);
    NothingPlacedNoWeight(Round(s, rr), Right);
  }

  /** The placement branch keeps the board valid: the pumpkin joins its side's
      total and takes the slot `NextSlot` picks; the other side is untouched.
      The side is marked overflowed when it had no free slot. */
  lemma PlaceKeepsBoard(b: Board, lo: bool, ro: bool, i: nat, roll: real, x: int, y: int)
    requires BoardValid(b, lo, ro) && i < |b.pumpkins| && !b.pumpkins[i].onSeesaw && IsRandom(roll)
    ensures b.SlotsSized()
    ensures BoardValid(PlaceStep(b, i, roll, x, y),
                       lo || (b.pumpkins[i].side == Left && LowestFree(b.leftSlots).None?),
                       ro || (b.pumpkins[i].side == Right && LowestFree(b.rightSlots).None?))
  {
    var ps := b.pumpkins;
    var p := ps[i];
    var q := Placed(p, NextSlot(b.Slots(p.side), roll), x, y);
    WellFormedUpdate(ps, i, q);
    if p.side == Left {
      PlaceKeepsSide(ps, i, q, Left, b.leftWeight, b.leftSlots, lo, roll);
      OtherSideKeeps(ps, i, q, Right, b.rightWeight, b.rightSlots, ro);
    } else {
      PlaceKeepsSide(ps, i, q, Right, b.rightWeight, b.rightSlots, ro, roll);
      OtherSideKeeps(ps, i, q, Left, b.leftWeight, b.leftSlots, lo);
    }
  }

  /** The removal branch keeps the board valid: on a valid board the pumpkin
      has a seesaw position, so it leaves its side's total, frees its slot and
      goes back to its spawn point. */
  lemma RemoveKeepsBoard(b: Board, lo: bool, ro: bool, i: nat)
    requires BoardValid(b, lo, ro) && i < |b.pumpkins| && b.pumpkins[i].onSeesaw
    ensures b.pumpkins[i].seesawPosition.Some? && 0 <= b.pumpkins[i].seesawPosition.value.slotIndex < SlotCount
    ensures BoardValid(RemoveStep(b, i), lo, ro)
  {
    var ps := b.pumpkins;
    var p := ps[i];
    assert PumpkinConsistent(ps, p);
    var k := p.seesawPosition.value.slotIndex;
    var q := Returned(p, SpawnPosition(p.side, ReturnIndex(ps, p)));
    WellFormedUpdate(ps, i, q);
    if p.side == Left {
      RemoveKeepsSide(ps, i, q, Left, b.leftWeight, b.leftSlots, lo, k);
      OtherSideKeeps(ps, i, q, Right, b.rightWeight, b.rightSlots, ro);
    } else {
      RemoveKeepsSide(ps, i, q, Right, b.rightWeight, b.rightSlots, ro, k);
      OtherSideKeeps(ps, i, q, Left, b.leftWeight, b.leftSlots, lo);
    }
  }

  /** Every click keeps the board valid. */
  lemma ClickKeepsBoard(b: Board, lo: bool, ro: bool, c: ClickInput)
    requires BoardValid(b, lo, ro) && IsRandom(c.roll)
    ensures b.SlotsSized()
    ensures BoardValid(ClickStep(b, c), lo || ClickOverflows(b, c, Left), ro || ClickOverflows(b, c, Right))
  {
    match IndexOfId(b.pumpkins, c.id)
    case None =>
    case Some(i) =>
      if b.pumpkins[i].onSeesaw {
        RemoveKeepsBoard(b, lo, ro, i);
      } else {
        PlaceKeepsBoard(b, lo, ro, i, c.roll, c.placedX, c.placedY);
      }
  }

  /** Every board a round passes through is valid; the slot tracking is exact
      on a side as long as no placement there has found every slot taken. */
  lemma {:induction false} TraceValid(boards: seq<Board>, cs: seq<ClickInput>, n: nat)
    requires IsTrace(boards, cs) && FreshRound(boards[0]) && n <= |cs|
    ensures BoardValid(boards[n], OverflowedBy(boards, cs, n, Left), OverflowedBy(boards, cs, n, Right))
  {
    if n == 0 {
      var s, rr :| IsValid(s) && RollsFit(s, rr) && boards[0] == Initial(Round(s, rr));
      FreshBoard(s, rr);
    } else {
      TraceValid(boards, cs, n - 1);
      var c := cs[n - 1];
      ClickKeepsBoard(boards[n - 1], OverflowedBy(boards, cs, n - 1, Left), OverflowedBy(boards, cs, n - 1, Right), c);
      forall side
        ensures OverflowedBy(boards, cs, n, side)
            <==> OverflowedBy(boards, cs, n - 1, side) || ClickOverflows(boards[n - 1], c, side)
      {
        if ClickOverflows(boards[n - 1], c, side) {
          assert 0 <= n - 1 < n && ClickOverflows(boards[n - 1], cs[n - 1], side);
        }
      }
    }
  }

  /** On a valid board, each side's total is the sum of the weights of the
      pumpkins placed there, a marked slot is held by a pumpkin of that side,
      and, while that side has not overflowed, a free slot is held by none. */
  lemma BoardMeaning(b: Board, lo: bool, ro: bool, side: Side, k: nat)
    requires BoardValid(b, lo, ro) && k < SlotCount
    ensures b.Weight(side) == PlacedWeight(b.pumpkins, side)
    ensures b.Slots(side)[k] ==> exists i :: 0 <= i < |b.pumpkins| && HoldsSlot(b.pumpkins[i], side, k)
    ensures !(if side == Left then lo else ro) && !b.Slots(side)[k] ==>
      forall i :: 0 <= i < |b.pumpkins| ==> !HoldsSlot(b.pumpkins[i], side, k)
  {
    HoldersMeaning(b.pumpkins, side, k);
  }

  /** In a well-formed round a click on the id of the pumpkin at index `i`
      removes or places that pumpkin. */
  lemma ClickActsOn(b: Board, i: nat, c: ClickInput)
    requires WellFormedRound(b.pumpkins) && b.SlotsSized() && i < |b.pumpkins|
    requires c.id == b.pumpkins[i].id && IsRandom(c.roll)
    ensures ClickStep(b, c)
         == if b.pumpkins[i].onSeesaw then RemoveStep(b, i) else PlaceStep(b, i, c.roll, c.placedX, c.placedY)
  {
    IndexOfIdInRound(b.pumpkins, c.id);
  }

  /** Removing a pumpkin just placed restores the board when it took a free
      slot. After an overflow placement the shared slot is cleared instead. */
  lemma RemoveUndoesPlace(b: Board, i: nat, roll: real, x: int, y: int)
    requires b.SlotsSized() && i < |b.pumpkins| && IsRandom(roll)
    requires !b.pumpkins[i].onSeesaw && PumpkinConsistent(b.pumpkins, b.pumpkins[i])
    ensures LowestFree(b.Slots(b.pumpkins[i].side)).Some? ==> RemoveStep(PlaceStep(b, i, roll, x, y), i) == b
    ensures LowestFree(b.Slots(b.pumpkins[i].side)).None? ==>
      var k := NextSlot(b.Slots(b.pumpkins[i].side), roll);
      RemoveStep(PlaceStep(b, i, roll, x, y), i)
        == if b.pumpkins[i].side == Left then b.(leftSlots := b.leftSlots[k := false]) else b.(rightSlots := b.rightSlots[k := false])
  {
    var ps := b.pumpkins;
    var p := ps[i];
    var b1 := PlaceStep(b, i, roll, x, y);
    var q := b1.pumpkins[i];
    assert RemoveStep(b1, i).pumpkins == ps by {
      CountSideUpdate(ps, i, q, Left);
      assert Returned(q, SpawnPosition(q.side, ReturnIndex(b1.pumpkins, q))) == p;
    }
    var slots := b.Slots(p.side);
    var k := NextSlot(slots, roll);
    assert LowestFree(slots).Some? ==> ClearSlot(SlotsAfterChoice(slots, roll), k) == slots by {
      LowestFreeIsFirst(slots);
    }
  }

  /** Placing a pumpkin and clicking it again restores the board (the pumpkin
      is back at its spawn point, both totals and both slot arrays as they were)
      when its side had a free slot. After an overflow placement the shared slot
      is cleared instead. */
  lemma PlaceThenRemove(b: Board, i: nat, c: ClickInput, c': ClickInput)
    requires WellFormedRound(b.pumpkins) && b.SlotsSized() && i < |b.pumpkins|
    requires !b.pumpkins[i].onSeesaw && PumpkinConsistent(b.pumpkins, b.pumpkins[i])
    requires c.id == b.pumpkins[i].id && c'.id == c.id && IsRandom(c.roll) && IsRandom(c'.roll)
    ensures LowestFree(b.Slots(b.pumpkins[i].side)).Some? ==> ClickStep(ClickStep(b, c), c') == b
    ensures LowestFree(b.Slots(b.pumpkins[i].side)).None? ==>
      var k := NextSlot(b.Slots(b.pumpkins[i].side), c.roll);
      ClickStep(ClickStep(b, c), c')
        == if b.pumpkins[i].side == Left then b.(leftSlots := b.leftSlots[k := false]) else b.(rightSlots := b.rightSlots[k := false])
  {
    var b1 := PlaceStep(b, i, c.roll, c.placedX, c.placedY);
    ClickActsOn(b, i, c);
    assert WellFormedRound(b1.pumpkins) by {
      CountSideUpdate(b.pumpkins, i, b1.pumpkins[i], Left);
    }
    ClickActsOn(b1, i, c');
    RemoveUndoesPlace(b, i, c.roll, c.placedX, c.placedY);
  }

  /** On a valid board every pumpkin on the seesaw is drawn above every
      pumpkin off it. */
  lemma PlacedPumpkinsDrawnAbove(ps: seq<PumpkinData>, i: nat, j: nat)
    requires AllConsistent(ps) && i < |ps| && j < |ps|
    requires ps[i].onSeesaw && !ps[j].onSeesaw
    ensures Pumpkin.ZIndex(ps[i].onSeesaw, SlotIndexOf(ps[i])) > Pumpkin.ZIndex(ps[j].onSeesaw, SlotIndexOf(ps[j]))
  {
    assert PumpkinConsistent(ps, ps[i]);
    Pumpkin.PlacedDrawnAbove(SlotIndexOf(ps[i]), SlotIndexOf(ps[j]));
  }

  /** `pumpkin.seesawPosition?.slotIndex`, the prop the game passes down. */
  function SlotIndexOf(p: PumpkinData): Option<int> {
    match p.seesawPosition
    case Some(sp) => Some(sp.slotIndex)
    case None => None
  }
}
