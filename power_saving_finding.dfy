/**
 * The power-saving toggle stores its result under the dynamic-colors key. This
 * module sets the code as written beside the evidently intended edit, which
 * stores the negated power-saving state under the power-saving key.
 */
module PowerSavingFinding {
  import opened Domain
  import opened UserPreferencesDataStore

  /**
   * The intended edit: the power-saving key now holds the negation of the
   * stored flag (or of the OS state when absent); the user's dynamic-colors
   * choice and the theme are untouched.
   */
  function IntendedPowerSavingToggled(m: Preferences, osPowerSaving: bool): (r: Preferences)
    requires Conforms(m)
    ensures Conforms(r)
    ensures r.Keys == m.Keys + {UsePowerSavingModeKey}
    ensures forall k | k in m && k != UsePowerSavingModeKey :: r[k] == m[k]
    ensures Decode(r) == Decode(m).(usePowerSavingMode := !CurrentPowerSaving(m, osPowerSaving))
  {
    m[UsePowerSavingModeKey := BoolValue(!CurrentPowerSaving(m, osPowerSaving))]
  }

  /**
   * With the intended edit, the second of two notifications undoes the first:
   * once the flag is stored, the OS state is no longer consulted.
   */
  lemma IntendedToggleTwiceRestores(m: Preferences, osFirst: bool, osSecond: bool)
    requires Conforms(m)
    ensures Decode(IntendedPowerSavingToggled(IntendedPowerSavingToggled(m, osFirst), osSecond))
         == Decode(m).(usePowerSavingMode := CurrentPowerSaving(m, osFirst))
  {
  }

  /**
   * The input that shows the defect: a user who turned dynamic colors off and
   * has power saving stored as off. On a power-save notification the code as
   * written turns dynamic colors back on and leaves power saving off; the
   * intended edit turns power saving on and keeps dynamic colors off.
   */
  lemma AsWrittenOverwritesDynamicColors()
    ensures var m := map[UseDynamicColorsKey := BoolValue(false), UsePowerSavingModeKey := BoolValue(false)];
      && Conforms(m)
      && Decode(m) == AppConfiguration(false, FollowAndroidSystem, false)
      && Decode(PowerSavingToggled(m, false)) == AppConfiguration(true, FollowAndroidSystem, false)
      && Decode(IntendedPowerSavingToggled(m, false)) == AppConfiguration(false, FollowAndroidSystem, true)
  {
  }
}
