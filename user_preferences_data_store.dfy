/**
 * The user-preferences store: a flat key-value map persisted by the storage
 * collaborator, decoded into an `AppConfiguration` snapshot on every emission,
 * and changed by three read-modify-write operations whose storage faults are
 * logged and swallowed.
 */
module UserPreferencesDataStore {
  import opened Wrappers
  import opened Domain

  /** A stored preference value: this store uses boolean and string keys only. */
  datatype Value = BoolValue(b: bool) | StringValue(s: string)

  /** The persisted map, keyed by the name of each preference key. */
  type Preferences = map<string, Value>

  /**
   * A fault raised by the storage collaborator. Its optional localized message
   * is what `tryIt` would log; logging is not modelled, so nothing reads it.
   */
  datatype StorageFault = StorageFault(localizedMessage: Option<string>)

  // The names of the three preference keys.
  const UseDynamicColorsKey: string := "use_dynamic_colors"
  const UsePowerSavingModeKey: string := "use_power_saving_mode"
  const ThemeStyleKey: string := "theme_style"

  // The values a snapshot takes for an absent key.
  const DefaultUseDynamicColors: bool := true
  const DefaultUsePowerSavingMode: bool := false

  /** The snapshot of a map that holds none of the three keys. */
  const DefaultConfiguration: AppConfiguration :=
    AppConfiguration(DefaultUseDynamicColors, FollowAndroidSystem, DefaultUsePowerSavingMode)

  /**
   * Each of the store's keys that is present holds a value of the key's declared
   * type (`PreferencesKeys`: two booleans and one string). The model assumes the
   * map is written only through these typed keys; the storage handle is
   * injected, so the code itself does not guarantee it.
   */
  predicate Conforms(m: Preferences) {
    && (UseDynamicColorsKey in m ==> m[UseDynamicColorsKey].BoolValue?)
    && (UsePowerSavingModeKey in m ==> m[UsePowerSavingModeKey].BoolValue?)
    && (ThemeStyleKey in m ==> m[ThemeStyleKey].StringValue?)
  }

  /** `preferences[booleanKey]`: the stored boolean, or None when the key is absent. */
  function GetBool(m: Preferences, key: string): Option<bool>
    requires key in m ==> m[key].BoolValue?
  {
    if key in m then Some(m[key].b) else None
  }

  /** `preferences[stringKey]`: the stored string, or None when the key is absent. */
  function GetString(m: Preferences, key: string): Option<string>
    requires key in m ==> m[key].StringValue?
  {
    if key in m then Some(m[key].s) else None
  }

  /**
   * `String?.toThemeStyleType()`: the names of LightMode and DarkMode parse to
   * those variants; every other string, and an absent value, parse to
   * FollowAndroidSystem. The parse is total.
   */
  function ToThemeStyleType(name: Option<string>): (t: ThemeStyleType)
    ensures t == LightMode <==> name == Some(LightMode.Name())
    ensures t == DarkMode <==> name == Some(DarkMode.Name())
    ensures t == FollowAndroidSystem <==> name != Some(LightMode.Name()) && name != Some(DarkMode.Name())
  {
    match name
    case Some("LightMode") => LightMode
    case Some("DarkMode") => DarkMode
    case _ => FollowAndroidSystem
  }

  /** Writing a theme's name and parsing it back gives the same theme, for every variant. */
  lemma ThemeNameRoundTrip(t: ThemeStyleType)
    ensures ToThemeStyleType(Some(t.Name())) == t
  {
  }

  /**
   * The body of the stream's `map`: a present key gives its stored value, an
   * absent key its default, and the theme goes through the total parse.
   */
  function Decode(m: Preferences): (c: AppConfiguration)
    requires Conforms(m)
    ensures UseDynamicColorsKey !in m ==> c.useDynamicColors == DefaultUseDynamicColors
    ensures UseDynamicColorsKey in m ==> c.useDynamicColors == m[UseDynamicColorsKey].b
    ensures UsePowerSavingModeKey !in m ==> c.usePowerSavingMode == DefaultUsePowerSavingMode
    ensures UsePowerSavingModeKey in m ==> c.usePowerSavingMode == m[UsePowerSavingModeKey].b
    ensures ThemeStyleKey !in m ==> c.themeStyle == FollowAndroidSystem
    ensures ThemeStyleKey in m ==> c.themeStyle == ToThemeStyleType(Some(m[ThemeStyleKey].s))
  {
    AppConfiguration(
      GetBool(m, UseDynamicColorsKey).GetOr(DefaultUseDynamicColors),
      ToThemeStyleType(GetString(m, ThemeStyleKey)),
      GetBool(m, UsePowerSavingModeKey).GetOr(DefaultUsePowerSavingMode)
    )
  }

  /**
   * One emission of the configuration stream for one read of the storage: a
   * failed read is replaced by the empty map, so it yields exactly the
   * all-defaults snapshot; a successful read yields the decoded map.
   */
  function Emission(read: Result<Preferences, StorageFault>): (c: AppConfiguration)
    requires read.Success? ==> Conforms(read.value)
    ensures read.Failure? ==> c == DefaultConfiguration
    ensures read.Success? ==> c == Decode(read.value)
  {
    var preferences := match read
      case Success(m) => m
      case Failure(_) => map[];
    Decode(preferences)
  }

  /**
   * The value the power-saving toggle reads: the stored power-saving flag, or
   * the operating system's power-saving state when the key is absent.
   */
  function CurrentPowerSaving(m: Preferences, osPowerSaving: bool): bool
    requires Conforms(m)
  {
    GetBool(m, UsePowerSavingModeKey).GetOr(osPowerSaving)
  }

  /**
   * The edit of `toggleDynamicColors`: the dynamic-colors key now holds the
   * negation of the decoded flag (so false when it was absent), every other key
   * is as it was, and the decoded snapshot differs only in that flag.
   */
  function DynamicColorsToggled(m: Preferences): (r: Preferences)
    requires Conforms(m)
    ensures Conforms(r)
    ensures r.Keys == m.Keys + {UseDynamicColorsKey}
    ensures r[UseDynamicColorsKey] == BoolValue(!Decode(m).useDynamicColors)
    ensures UseDynamicColorsKey !in m ==> r[UseDynamicColorsKey] == BoolValue(false)
    ensures forall k | k in m && k != UseDynamicColorsKey :: r[k] == m[k]
    ensures Decode(r) == Decode(m).(useDynamicColors := !Decode(m).useDynamicColors)
  {
    var current := GetBool(m, UseDynamicColorsKey).GetOr(true);
    m[UseDynamicColorsKey := BoolValue(!current)]
  }

  /**
   * Two toggles restore the decoded flag; when the key was already stored they
   * restore the map itself.
   */
  lemma DynamicColorsToggleTwice(m: Preferences)
    requires Conforms(m)
    ensures Decode(DynamicColorsToggled(DynamicColorsToggled(m))) == Decode(m)
    ensures UseDynamicColorsKey in m ==> DynamicColorsToggled(DynamicColorsToggled(m)) == m
  {
  }

  /**
   * The edit of `togglePowerSavingMode` as the code writes it: it reads the
   * power-saving flag (or the OS state when absent) but stores its negation
   * under the DYNAMIC-COLORS key. The power-saving key and the theme are never
   * touched, so the decoded power-saving flag never changes.
   */
  function PowerSavingToggled(m: Preferences, osPowerSaving: bool): (r: Preferences)
    requires Conforms(m)
    ensures Conforms(r)
    ensures r.Keys == m.Keys + {UseDynamicColorsKey}
    ensures r[UseDynamicColorsKey] == BoolValue(!CurrentPowerSaving(m, osPowerSaving))
    ensures UsePowerSavingModeKey in m ==> r[UseDynamicColorsKey] == BoolValue(!m[UsePowerSavingModeKey].b)
    ensures UsePowerSavingModeKey !in m ==> r[UseDynamicColorsKey] == BoolValue(!osPowerSaving)
    ensures forall k | k in m && k != UseDynamicColorsKey :: r[k] == m[k]
    ensures Decode(r) == Decode(m).(useDynamicColors := !CurrentPowerSaving(m, osPowerSaving))
  {
    m[UseDynamicColorsKey := BoolValue(!CurrentPowerSaving(m, osPowerSaving))]
  }

  /**
   * The update of `changeThemeStyle`: an unconditional overwrite of the theme key
   * with the style's name. Decoding the result gives back exactly that style,
   * and nothing else changes.
   */
  function ThemeChanged(m: Preferences, style: ThemeStyleType): (r: Preferences)
    requires Conforms(m)
    ensures Conforms(r)
    ensures r.Keys == m.Keys + {ThemeStyleKey}
    ensures r[ThemeStyleKey] == StringValue(style.Name())
    ensures forall k | k in m && k != ThemeStyleKey :: r[k] == m[k]
    ensures Decode(r) == Decode(m).(themeStyle := style)
  {
    ThemeNameRoundTrip(style);
    m[ThemeStyleKey := StringValue(style.Name())]
  }

  /** Of two theme changes the last one wins: the first leaves no trace. */
  lemma ThemeChangeLastWins(m: Preferences, first: ThemeStyleType, second: ThemeStyleType)
    requires Conforms(m)
    ensures ThemeChanged(ThemeChanged(m, first), second) == ThemeChanged(m, second)
    ensures Decode(ThemeChanged(ThemeChanged(m, first), second)).themeStyle == second
  {
  }

  /**
   * The store: it owns the handle to the persisted map. Every operation is one
   * atomic edit of the map; when the storage fails to write, the fault is caught
   * and logged (`tryIt`), the map stays as it was and the operation returns
   * normally. `write` is the storage's verdict on the edit.
   */
  class UserPreferencesStore {
    /** The map the storage collaborator holds. */
    var preferences: Preferences

    ghost predicate Valid()
      reads this
    {
      Conforms(preferences)
    }

    constructor (stored: Preferences)
      requires Conforms(stored)
      ensures Valid() && preferences == stored
    {
      preferences := stored;
    }

    /** Flips the stored dynamic-colors flag, absent counting as true. */
    method ToggleDynamicColors(write: Outcome<StorageFault>)
      requires Valid()
      modifies this
      ensures Valid()
      ensures write.Pass? ==> preferences == DynamicColorsToggled(old(preferences))
      ensures write.Fail? ==> preferences == old(preferences)
    {
      var current := true;
      if UseDynamicColorsKey in preferences {
        current := preferences[UseDynamicColorsKey].b;
      }
      if write.Pass? {
        preferences := preferences[UseDynamicColorsKey := BoolValue(!current)];
      }
      // On Fail the fault is logged and dropped: nothing reaches the caller.
    }

    /**
     * Runs when the OS reports a power-save-mode change. As written, it stores
     * the negated power-saving state under the dynamic-colors key.
     */
    method TogglePowerSavingMode(osPowerSaving: bool, write: Outcome<StorageFault>)
      requires Valid()
      modifies this
      ensures Valid()
      ensures write.Pass? ==> preferences == PowerSavingToggled(old(preferences), osPowerSaving)
      ensures write.Fail? ==> preferences == old(preferences)
    {
      var current := osPowerSaving;
      if UsePowerSavingModeKey in preferences {
        current := preferences[UsePowerSavingModeKey].b;
      }
      if write.Pass? {
        preferences := preferences[UseDynamicColorsKey := BoolValue(!current)];
      }
    }

    /** Overwrites the stored theme with the style's name. */
    method ChangeThemeStyle(style: ThemeStyleType, write: Outcome<StorageFault>)
      requires Valid()
      modifies this
      ensures Valid()
      ensures write.Pass? ==> preferences == ThemeChanged(old(preferences), style)
      ensures write.Fail? ==> preferences == old(preferences)
    {
      if write.Pass? {
        preferences := preferences[ThemeStyleKey := StringValue(style.Name())];
      }
    }
  }
}
