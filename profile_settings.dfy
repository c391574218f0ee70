/**
 * ProfileSettingsActivity: the profile and photos privacy levels, each changed through
 * the three-chip privacy sheet (the same chips as `PrivacyVisibility`).
 */
module ProfileSettings {
  import opened Wrappers
  import PrivacyVisibility

  datatype PrivacyLevel = EveryoneLevel | MatchesOnlyLevel | NobodyLevel

  type Chip = PrivacyVisibility.CheckedChip

  /** `mapPrivacyLevelToChipId`: every level has its own chip. */
  function ChipFor(level: PrivacyLevel): (chip: Chip)
    ensures chip != PrivacyVisibility.NoChip
  {
    match level
    case EveryoneLevel => PrivacyVisibility.EveryoneChip
    case MatchesOnlyLevel => PrivacyVisibility.MatchesChip
    case NobodyLevel => PrivacyVisibility.NobodyChip
  }

  /** `mapChipIdToPrivacyLevel`: the level of a known chip, and null for any other id. */
  function LevelFor(chip: Chip): (r: Option<PrivacyLevel>)
    ensures r.None? <==> chip == PrivacyVisibility.NoChip
  {
    match chip
    case EveryoneChip => Some(EveryoneLevel)
    case MatchesChip => Some(MatchesOnlyLevel)
    case NobodyChip => Some(NobodyLevel)
    case NoChip => None
  }

  /** The two mappings are inverse: level to chip and back, and known chip to level and back. */
  lemma ChipLevelRoundTrip(level: PrivacyLevel, chip: Chip)
    ensures LevelFor(ChipFor(level)) == Some(level)
    ensures chip != PrivacyVisibility.NoChip ==> ChipFor(LevelFor(chip).value) == chip
  {
  }

  /** The apply button's choice: the checked chip's level, or the current level when no known chip is checked. */
  function Applied(current: PrivacyLevel, checked: Chip): (r: PrivacyLevel)
    ensures checked == PrivacyVisibility.NoChip ==> r == current
    ensures checked != PrivacyVisibility.NoChip ==> ChipFor(r) == checked
  {
    var selected := LevelFor(checked);
    if selected.None? then current else selected.value
  }

  /** Applying the sheet as it opened keeps the level. */
  lemma ApplyUntouchedKeepsLevel(level: PrivacyLevel)
    ensures Applied(level, ChipFor(level)) == level
  {
    ChipLevelRoundTrip(level, ChipFor(level));
  }

  /** Which row opened the sheet. */
  datatype Row = ProfileRow | PhotosRow

  class ProfileSettingsActivity {
    var profileVisibilityLevel: PrivacyLevel
    var photosVisibilityLevel: PrivacyLevel

    /** The levels before any change: everyone sees the profile, matches see the photos. */
    constructor ()
      ensures profileVisibilityLevel == EveryoneLevel && photosVisibilityLevel == MatchesOnlyLevel
    {
      profileVisibilityLevel := EveryoneLevel;
      photosVisibilityLevel := MatchesOnlyLevel;
    }

    function LevelOf(row: Row): PrivacyLevel
      reads this
    {
      if row == ProfileRow then profileVisibilityLevel else photosVisibilityLevel
    }

    /** `showPrivacyBottomSheet`: the chip checked when the sheet opens is the row's current level. */
    method OpenSheet(row: Row) returns (checked: Chip)
      ensures checked != PrivacyVisibility.NoChip
      ensures LevelFor(checked) == Some(LevelOf(row))
    {
      checked := ChipFor(LevelOf(row));
      ChipLevelRoundTrip(LevelOf(row), checked);
    }

    /**
     * Apply on the sheet opened from `row`: that row's level becomes the applied one,
     * and the other row's level is left alone.
     */
    method Apply(row: Row, checked: Chip)
      modifies this
      ensures LevelOf(row) == Applied(old(LevelOf(row)), checked)
      ensures row == ProfileRow ==> photosVisibilityLevel == old(photosVisibilityLevel)
      ensures row == PhotosRow ==> profileVisibilityLevel == old(profileVisibilityLevel)
    {
      var level := Applied(LevelOf(row), checked);
      if row == ProfileRow {
        profileVisibilityLevel := level;
      } else {
        photosVisibilityLevel := level;
      }
    }
  }
}
