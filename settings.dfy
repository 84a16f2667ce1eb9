/** The game's configuration record (`GameSettings`, declared in
    components/pumpkin-game.tsx) and the settings dialog of
    components/settings.tsx: its validity check, its field updates and the
    guard on its apply button. */
module Settings {
  import opened Wrappers

  /** The colour presets the dialog offers. `Unlisted` stands for any other
      string: the dialog stores the select's value with an unchecked
      `as ColorPreset` cast, and the pumpkin's colour switch has a fallback for it. */
  datatype ColorPreset = Default | Autumn | Pastel | Vibrant | Monochrome | Unlisted(name: string)

  datatype SeesawStyle = Classic | Modern | Playful

  datatype GameSettings = GameSettings(
    colorPreset: ColorPreset,
    seesawStyle: SeesawStyle,
    leftPumpkinsMin: int,
    leftPumpkinsMax: int,
    rightPumpkinsMin: int,
    rightPumpkinsMax: int,
    minWeight: int,
    maxWeight: int)

  /** The settings a game starts with: 4 to 8 pumpkins a side, weights 1 to 12.
      They pass the dialog's check. */
  function DefaultSettings(): (s: GameSettings)
    ensures IsValid(s)
  {
    GameSettings(Default, Classic, 4, 8, 4, 8, 1, 12)
  }

  /** The dialog's `isValid`: every range is ordered and every minimum is at least 1. */
  predicate IsValid(s: GameSettings)
    ensures IsValid(s) ==> s.leftPumpkinsMax >= 1 && s.rightPumpkinsMax >= 1 && s.maxWeight >= 1
  {
    && s.leftPumpkinsMin <= s.leftPumpkinsMax
    && s.rightPumpkinsMin <= s.rightPumpkinsMax
    && s.minWeight <= s.maxWeight
    && s.leftPumpkinsMin >= 1
    && s.rightPumpkinsMin >= 1
    && s.minWeight >= 1
  }

  /** The numeric fields of the record, as `keyof GameSettings` names them. */
  datatype NumberField =
    | LeftPumpkinsMin | LeftPumpkinsMax
    | RightPumpkinsMin | RightPumpkinsMax
    | MinWeight | MaxWeight

  /** A `handleChange(field, value)` call: which field, and the new value. */
  datatype Change =
    | SetColorPreset(preset: ColorPreset)
    | SetSeesawStyle(style: SeesawStyle)
    | SetNumber(field: NumberField, value: int)

  /** The value of a numeric field. */
  function NumberOf(s: GameSettings, f: NumberField): int {
    match f
    case LeftPumpkinsMin => s.leftPumpkinsMin
    case LeftPumpkinsMax => s.leftPumpkinsMax
    case RightPumpkinsMin => s.rightPumpkinsMin
    case RightPumpkinsMax => s.rightPumpkinsMax
    case MinWeight => s.minWeight
    case MaxWeight => s.maxWeight
  }

  /** `{ ...prev, [field]: value }`: the changed field takes the new value and
      every other field keeps its old one. */
  function Changed(s: GameSettings, c: Change): (r: GameSettings)
    ensures c.SetColorPreset? ==> r.colorPreset == c.preset
    ensures !c.SetColorPreset? ==> r.colorPreset == s.colorPreset
    ensures c.SetSeesawStyle? ==> r.seesawStyle == c.style
    ensures !c.SetSeesawStyle? ==> r.seesawStyle == s.seesawStyle
    ensures forall f :: NumberOf(r, f) == if c.SetNumber? && c.field == f then c.value else NumberOf(s, f)
  {
    match c
    case SetColorPreset(p) => s.(colorPreset := p)
    case SetSeesawStyle(st) => s.(seesawStyle := st)
    case SetNumber(LeftPumpkinsMin, v) => s.(leftPumpkinsMin := v)
    case SetNumber(LeftPumpkinsMax, v) => s.(leftPumpkinsMax := v)
    case SetNumber(RightPumpkinsMin, v) => s.(rightPumpkinsMin := v)
    case SetNumber(RightPumpkinsMax, v) => s.(rightPumpkinsMax := v)
    case SetNumber(MinWeight, v) => s.(minWeight := v)
    case SetNumber(MaxWeight, v) => s.(maxWeight := v)
  }

  /** The dialog's draft settings, edited field by field until applied or cancelled. */
  class SettingsForm {
    var settings: GameSettings

    /** The draft starts as a copy of the game's current settings. */
    constructor (currentSettings: GameSettings)
      ensures settings == currentSettings
    {
      settings := currentSettings;
    }

    /** `handleChange`: updates exactly one field of the draft. */
    method HandleChange(c: Change)
      modifies this
      ensures settings == Changed(old(settings), c)
    {
      settings := Changed(settings, c);
    }

    /** `handleNumberChange`: `parsed` is what `Number.parseInt` made of the
        input, `None` for NaN. Input that does not parse leaves the draft alone. */
    method HandleNumberChange(f: NumberField, parsed: Option<int>)
      modifies this
      ensures parsed.None? ==> settings == old(settings)
      ensures parsed.Some? ==> settings == Changed(old(settings), SetNumber(f, parsed.value))
    {
      if parsed.Some? {
        HandleChange(SetNumber(f, parsed.value));
      }
    }

    /** The apply button, `isValid() && onApply(settings)`: returns the settings
        handed to `onApply`, or `None` when the click has no effect. */
    method ApplyClicked() returns (applied: Option<GameSettings>)
      ensures applied.Some? <==> IsValid(settings)
      ensures applied.Some? ==> applied.value == settings
    {
      if IsValid(settings) {
        applied := Some(settings);
      } else {
        applied := None;
      }
    }
  }
}
