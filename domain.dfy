/**
 * The domain types the preferences store produces: the theme enumeration and the
 * configuration snapshot. Both are plain values.
 */
module Domain {

  /** The three theme choices of the application. */
  datatype ThemeStyleType = LightMode | DarkMode | FollowAndroidSystem {

    /** Kotlin's `Enum.name`: the identifier the constant is declared with. */
    function Name(): string {
      match this
      case LightMode => "LightMode"
      case DarkMode => "DarkMode"
      case FollowAndroidSystem => "FollowAndroidSystem"
    }
  }

  /** An immutable snapshot of the user-facing configuration. */
  datatype AppConfiguration = AppConfiguration(
    useDynamicColors: bool,
    themeStyle: ThemeStyleType,
    usePowerSavingMode: bool
  )
}
