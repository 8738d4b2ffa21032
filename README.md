# User preferences store of the image gallery app

This project models the user-preferences store of an Android image-gallery
application (`UserPreferencesImplDataStore`). The store keeps a flat
key-value map with three keys:

- `use_dynamic_colors`, a boolean;
- `use_power_saving_mode`, a boolean;
- `theme_style`, the name of a theme variant.

Every emission of the configuration stream decodes that map into an
`AppConfiguration` snapshot. An absent key takes its default: dynamic colors
on, power saving off, theme `FollowAndroidSystem`. A theme name other than
`LightMode` or `DarkMode` also parses to `FollowAndroidSystem`. A failed read
is replaced by the empty map, so it yields the all-defaults snapshot.

Three operations change the map. Each one is a single atomic edit:

- `toggleDynamicColors` negates the dynamic-colors flag.
- `changeThemeStyle` overwrites the theme name.
- `togglePowerSavingMode` runs on an OS power-save notification.

A storage fault in any of them is logged and swallowed. The map then stays as
it was, and the caller sees nothing.

`togglePowerSavingMode` reads the power-saving flag, falling back to the OS
power state when the key is absent. It then writes the negation into the
DYNAMIC-COLORS key. The model keeps this behaviour as written. It proves that
no history of calls ever changes the stored power-saving flag. It also sets the
evidently intended edit beside it (see "## Findings").

Layout:

- `wrappers.dfy`: `Option`, `Outcome` and `Result`.
- `domain.dfy`: `ThemeStyleType` with Kotlin's `name`, and the `AppConfiguration` snapshot.
- `user_preferences_data_store.dfy`: the keys, the value schema (`Conforms`),
  decoding, the stream emission, the three edits as functions, and the class
  `UserPreferencesStore`. The class holds the persisted map in a field, and
  its three methods update it.
- `call_history.dfy`: any sequence of calls, with or without storage faults,
  and what it does to the map.
- `power_saving_finding.dfy`: the power-saving toggle as written beside the
  intended one.

Modelling choices:

- The OS power state (`isPowerSavingMode(context)`) is a boolean parameter.
- The storage's success or failure on a write is an `Outcome<StorageFault>` parameter.
- A read of the storage is a `Result<Preferences, StorageFault>` parameter.
- The model assumes that the map is only ever written through the three typed
  keys, so each key, when present, holds a value of its declared type. This is
  an assumption, not something the code enforces: the storage handle is
  injected (UserPreferencesImplDataStore.kt:23) and keys match by name.
  `Conforms` states the assumption, and every decoding and edit requires it
  and preserves it.

Two points about the code's behaviour:

- The power-saving toggle writes to the dynamic-colors key, not to the
  power-saving key.
- After a read failure the `catch` operator emits one default snapshot. The
  stream then completes; it does not keep running.

## Model

| member | source | states |
|---|---|---|
| `UserPreferencesDataStore.ToThemeStyleType` | app/src/main/java/com/example/imagesproject/data/datastore/UserPreferencesImplDataStore.kt:105-109 | the parse is total; it gives LightMode exactly for the name "LightMode", DarkMode exactly for "DarkMode", and FollowAndroidSystem for every other string and for an absent value |
| `UserPreferencesDataStore.ThemeNameRoundTrip` | app/src/main/java/com/example/imagesproject/data/datastore/UserPreferencesImplDataStore.kt:105-109 | parsing a variant's stored name gives back that variant, for all three variants |
| `UserPreferencesDataStore.Conforms` | app/src/main/java/com/example/imagesproject/data/datastore/UserPreferencesImplDataStore.kt:111-115 | each of the three keys, when present, holds a value of its declared type (two booleans, one string) |
| `UserPreferencesDataStore.Decode` | app/src/main/java/com/example/imagesproject/data/datastore/UserPreferencesImplDataStore.kt:44-53 | each field of the snapshot is the stored value when its key is present; an absent key gives dynamic colors true, power saving false and theme FollowAndroidSystem |
| `UserPreferencesDataStore.Emission` | app/src/main/java/com/example/imagesproject/data/datastore/UserPreferencesImplDataStore.kt:39-53 | a failed read yields exactly the all-defaults snapshot; a successful read yields the decoded map |
| `UserPreferencesDataStore.DynamicColorsToggled` | app/src/main/java/com/example/imagesproject/data/datastore/UserPreferencesImplDataStore.kt:71-74 | the dynamic-colors key holds the negation of the decoded flag, which is false when the key was absent; every other key is unchanged; the new snapshot differs only in that flag |
| `UserPreferencesDataStore.DynamicColorsToggleTwice` | app/src/main/java/com/example/imagesproject/data/datastore/UserPreferencesImplDataStore.kt:69-76 | two toggles restore the decoded snapshot, and restore the map itself when the key was already stored |
| `UserPreferencesDataStore.PowerSavingToggled` | app/src/main/java/com/example/imagesproject/data/datastore/UserPreferencesImplDataStore.kt:80-83 | as written, the negation of the stored power-saving flag (or of the OS state when absent) goes into the dynamic-colors key; the power-saving and theme keys are unchanged, so the decoded power-saving flag is unchanged |
| `UserPreferencesDataStore.ThemeChanged` | app/src/main/java/com/example/imagesproject/data/datastore/UserPreferencesImplDataStore.kt:89-92 | the theme key holds the style's name; decoding gives back exactly that style; every other key and field is unchanged |
| `UserPreferencesDataStore.ThemeChangeLastWins` | app/src/main/java/com/example/imagesproject/data/datastore/UserPreferencesImplDataStore.kt:87-95 | after two theme changes the map equals the map after the second alone, so the last call wins |
| `UserPreferencesDataStore.UserPreferencesStore.constructor` | app/src/main/java/com/example/imagesproject/data/datastore/UserPreferencesImplDataStore.kt:22-25 | the store starts on the map the storage holds |
| `UserPreferencesDataStore.UserPreferencesStore.ToggleDynamicColors` | app/src/main/java/com/example/imagesproject/data/datastore/UserPreferencesImplDataStore.kt:69-76 | on a successful write the map becomes the dynamic-colors toggle of the old map; on a storage fault the map is unchanged and the method returns normally; the schema is kept |
| `UserPreferencesDataStore.UserPreferencesStore.TogglePowerSavingMode` | app/src/main/java/com/example/imagesproject/data/datastore/UserPreferencesImplDataStore.kt:78-85 | on a successful write the map becomes the as-written power-saving toggle of the old map for the given OS state; on a fault it is unchanged and the method returns normally |
| `UserPreferencesDataStore.UserPreferencesStore.ChangeThemeStyle` | app/src/main/java/com/example/imagesproject/data/datastore/UserPreferencesImplDataStore.kt:87-95 | on a successful write the map becomes the old map with the theme overwritten by the style; on a fault it is unchanged and the method returns normally |
| `CallHistory.Step` | app/src/main/java/com/example/imagesproject/data/datastore/UserPreferencesImplDataStore.kt:97-103 | a call whose write fails leaves the map as it was; no call touches the power-saving key; only the dynamic-colors and theme keys can change |
| `CallHistory.Run` | app/src/main/java/com/example/imagesproject/data/datastore/UserPreferencesImplDataStore.kt:69-95 | any sequence of calls keeps every stored key at its declared type |
| `CallHistory.RunFrame` | app/src/main/java/com/example/imagesproject/data/datastore/UserPreferencesImplDataStore.kt:69-95 | after any sequence of calls, every key other than dynamic colors and theme is present with its old value exactly when it was before, and no new key appears |
| `CallHistory.RunKeepsPowerSavingMode` | app/src/main/java/com/example/imagesproject/data/datastore/UserPreferencesImplDataStore.kt:78-85 | no sequence of calls ever changes the stored power-saving flag, so the decoded power-saving flag is fixed |
| `CallHistory.RunLastThemeWins` | app/src/main/java/com/example/imagesproject/data/datastore/UserPreferencesImplDataStore.kt:87-95 | after any sequence of calls the decoded theme is that of the last successful theme change, or the original theme when there was none |
| `CallHistory.RunFailedCallsChangeNothing` | app/src/main/java/com/example/imagesproject/data/datastore/UserPreferencesImplDataStore.kt:97-103 | a sequence of calls whose writes all fail leaves the map, and hence the snapshot, unchanged |
| `PowerSavingFinding.IntendedPowerSavingToggled` | app/src/main/java/com/example/imagesproject/data/datastore/UserPreferencesImplDataStore.kt:80-82 | the intended edit: the decoded power-saving flag becomes the negation of the stored flag (or of the OS state when absent); dynamic colors and theme are unchanged |
| `PowerSavingFinding.IntendedToggleTwiceRestores` | app/src/main/java/com/example/imagesproject/data/datastore/UserPreferencesImplDataStore.kt:80-82 | with the intended edit, a second notification restores the flag the first one read (the stored flag, or the OS state when the key was absent); dynamic colors and theme are unchanged |
| `PowerSavingFinding.AsWrittenOverwritesDynamicColors` | app/src/main/java/com/example/imagesproject/data/datastore/UserPreferencesImplDataStore.kt:81-82 | on a concrete map, the written toggle turns the user's dynamic colors back on and leaves power saving off, where the intended edit turns power saving on |

## Left out

- Broadcast receiver registration and `goAsync` (UserPreferencesImplDataStore.kt:27-37, 55-67): these are Android plumbing and a detached coroutine. Only the effect of one `togglePowerSavingMode` call is modelled.
- `isPowerSavingMode(context)` is an OS query whose code is not part of this model. It is the parameter `osPowerSaving`.
- Flow semantics are not modelled: subscription, multiple subscribers, cancellation, and the stream completing after `catch`. Only the per-emission function and the empty-map substitution are modelled.
- An exception thrown inside `map` is downstream of `catch` and would reach the collector. The model has no such exception, because `Conforms` rules out a stored value of the wrong type.
- A stored value of the wrong type under one of the three key names is not modelled: `Conforms` excludes it. In the code it would make a toggle's transform throw, and `tryIt` (UserPreferencesImplDataStore.kt:97-103) would swallow that exception, leaving the map unchanged.
- Storage internals (`edit`, `updateData`, `toPreferences`) are left out. So are the atomicity and serialisation of concurrent writers. Each edit is one atomic map update, and a history of calls is a sequence. So two concurrent toggles are modelled only as two toggles in sequence.
- A storage fault is the storage's verdict on the whole edit. The model does not distinguish a fault raised before the transform from one raised after it: in both cases the map is unchanged.
- `Log.e` and the check for a null `localizedMessage` are left out. Logging has no state that the store reads.
- `ThemeStyleType` and `AppConfiguration` are declared in files that are not part of this model. Their shape is taken from how this file uses them.
- ImagesScreenState.kt and ImageUrlEntity.kt are plain data holders with no behaviour.

## Findings

| source | as written | input that shows it | evidently intended | confidence | as-written member | corrected member |
|---|---|---|---|---|---|---|
| app/src/main/java/com/example/imagesproject/data/datastore/UserPreferencesImplDataStore.kt:81-82 | the negated power-saving state is stored under `use_dynamic_colors` | stored `use_dynamic_colors = false`, `use_power_saving_mode = false`, OS power saving off, one power-save notification: dynamic colors becomes true, power saving stays false | store the negation under `use_power_saving_mode`, leaving dynamic colors alone | medium, not executed | `UserPreferencesDataStore.PowerSavingToggled`, `PowerSavingFinding.AsWrittenOverwritesDynamicColors` | `PowerSavingFinding.IntendedPowerSavingToggled` |

The store class and the call histories keep the as-written edit, because they
model what the code does. The intended edit is stated and proved on its own,
in `PowerSavingFinding`.
