/** The pure display rules of components/pumpkin.tsx: the body colour chosen
    from the preset and the weight, the stem colour chosen from the preset, and
    the stacking order (`zIndex`). Colours are the Tailwind class names the
    component returns. */
module Pumpkin {
  import opened Wrappers
  import opened Settings

  /** `getPumpkinColor`: a switch on the preset, then the weight thresholds 3, 6, 9. */
  function PumpkinColor(preset: ColorPreset, weight: int): string {
    match preset
    case Autumn =>
      if weight <= 3 then "bg-amber-300"
      else if weight <= 6 then "bg-amber-500"
      else if weight <= 9 then "bg-orange-600"
      else "bg-orange-800"
    case Pastel =>
      if weight <= 3 then "bg-pink-300"
      else if weight <= 6 then "bg-purple-300"
      else if weight <= 9 then "bg-blue-300"
      else "bg-indigo-300"
    case Vibrant =>
      if weight <= 3 then "bg-yellow-400"
      else if weight <= 6 then "bg-green-500"
      else if weight <= 9 then "bg-red-500"
      else "bg-purple-500"
    case Monochrome =>
      if weight <= 3 then "bg-gray-300"
      else if weight <= 6 then "bg-gray-400"
      else if weight <= 9 then "bg-gray-600"
      else "bg-gray-800"
    case _ =>
      if weight <= 3 then "bg-orange-400"
      else if weight <= 6 then "bg-orange-500"
      else if weight <= 9 then "bg-orange-600"
      else "bg-orange-700"
  }

  /** `getStemColor`: one stem colour per preset, `bg-green-800` for every other value. */
  function StemColor(preset: ColorPreset): string {
    match preset
    case Autumn => "bg-amber-950"
    case Pastel => "bg-green-400"
    case Vibrant => "bg-lime-600"
    case Monochrome => "bg-gray-900"
    case _ => "bg-green-800"
  }

  /** Which of the four weight classes a weight falls in, lightest first. */
  function WeightBucket(weight: int): (b: nat)
    ensures b < 4
    ensures b == 0 <==> weight <= 3
    ensures b == 3 <==> weight >= 10
    ensures b == 1 <==> 4 <= weight <= 6
    ensures b == 2 <==> 7 <= weight <= 9
  {
    if weight <= 3 then 0 else if weight <= 6 then 1 else if weight <= 9 then 2 else 3
  }

  /** The four body colours of a preset, lightest weight class first: a table
      independent of the if-chains above. */
  function Palette(preset: ColorPreset): (p: seq<string>)
    ensures |p| == 4
  {
    match preset
    case Autumn => ["bg-amber-300", "bg-amber-500", "bg-orange-600", "bg-orange-800"]
    case Pastel => ["bg-pink-300", "bg-purple-300", "bg-blue-300", "bg-indigo-300"]
    case Vibrant => ["bg-yellow-400", "bg-green-500", "bg-red-500", "bg-purple-500"]
    case Monochrome => ["bg-gray-300", "bg-gray-400", "bg-gray-600", "bg-gray-800"]
    case _ => ["bg-orange-400", "bg-orange-500", "bg-orange-600", "bg-orange-700"]
  }

  /** Every preset uses the same thresholds: the colour depends on the weight
      only through its weight class. */
  lemma ColorIsPaletteEntry(preset: ColorPreset, weight: int)
    ensures PumpkinColor(preset, weight) == Palette(preset)[WeightBucket(weight)]
  {
  }

  /** Within a preset the four colours differ, so two weights get the same colour
      exactly when they are in the same weight class. */
  lemma SameColorIffSameBucket(preset: ColorPreset, w1: int, w2: int)
    ensures PumpkinColor(preset, w1) == PumpkinColor(preset, w2) <==> WeightBucket(w1) == WeightBucket(w2)
  {
    ColorIsPaletteEntry(preset, w1);
    ColorIsPaletteEntry(preset, w2);
    var p := Palette(preset);
    forall i, j | 0 <= i < 4 && 0 <= j < 4 && i != j
      ensures p[i] != p[j]
    {
      PaletteEntriesDiffer(preset, i, j);
    }
  }

  lemma PaletteEntriesDiffer(preset: ColorPreset, i: nat, j: nat)
    requires i < 4 && j < 4 && i != j
    ensures Palette(preset)[i] != Palette(preset)[j]
  {
  }

  /** Heavier pumpkins never fall in a lighter class. */
  lemma BucketMonotone(w1: int, w2: int)
    requires w1 <= w2
    ensures WeightBucket(w1) <= WeightBucket(w2)
  {
  }

  /** With the default preset: orange-400 up to 3, 500 for 4 to 6, 600 for 7 to 9, 700 from 10. */
  lemma DefaultColors(weight: int)
    ensures weight <= 3 ==> PumpkinColor(Default, weight) == "bg-orange-400"
    ensures 4 <= weight <= 6 ==> PumpkinColor(Default, weight) == "bg-orange-500"
    ensures 7 <= weight <= 9 ==> PumpkinColor(Default, weight) == "bg-orange-600"
    ensures weight >= 10 ==> PumpkinColor(Default, weight) == "bg-orange-700"
  {
  }

  /** A preset value outside the list falls back to the default body and stem colours. */
  lemma UnlistedPresetFallsBack(name: string, weight: int)
    ensures PumpkinColor(Unlisted(name), weight) == PumpkinColor(Default, weight)
    ensures StemColor(Unlisted(name)) == StemColor(Default) == "bg-green-800"
  {
  }

  /** The listed presets have pairwise different stems, and any other value
      gets the default stem. */
  lemma StemColorPerPreset(p: ColorPreset, q: ColorPreset)
    ensures !p.Unlisted? && !q.Unlisted? ==> (StemColor(p) == StemColor(q) <==> p == q)
    ensures p.Unlisted? ==> StemColor(p) == StemColor(Default)
  {
  }

  /** The style's `zIndex`: `20 + slotIndex` on the seesaw and `10` off it, where
      an absent `slotIndex` prop defaults to 0. */
  function ZIndex(onSeesaw: bool, slotIndex: Option<int>): int {
    if onSeesaw then 20 + slotIndex.GetOr(0) else 10
  }

  /** A pumpkin on the seesaw, whatever its slot in [0, 8), is drawn above every
      pumpkin off it, and of two pumpkins on the seesaw the one in the higher slot
      (nearer the pivot) is drawn above. */
  lemma PlacedDrawnAbove(slot: Option<int>, other: Option<int>)
    requires slot.Some? ==> 0 <= slot.value < 8
    ensures ZIndex(true, slot) > ZIndex(false, other)
    ensures slot.Some? && other.Some? && slot.value < other.value ==> ZIndex(true, slot) < ZIndex(true, other)
  {
  }
}
