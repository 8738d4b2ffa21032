/**
 * Sequences of calls to the store. Each call is one edit wrapped in the
 * log-and-swallow policy; these lemmas state what any history of calls does to
 * the persisted map.
 */
module CallHistory {
  import opened Wrappers
  import opened Domain
  import opened UserPreferencesDataStore

  /** One call to the store, with the storage's verdict on its write. */
  datatype Call =
    | DynamicColorsToggle(write: Outcome<StorageFault>)
    | PowerSavingToggle(osPowerSaving: bool, write: Outcome<StorageFault>)
    | ThemeChange(style: ThemeStyleType, write: Outcome<StorageFault>)

  /**
   * The map after one call: a failed write leaves it as it was, and no call,
   * successful or not, touches the power-saving key.
   */
  function Step(m: Preferences, call: Call): (r: Preferences)
    requires Conforms(m)
    ensures Conforms(r)
    ensures call.write.Fail? ==> r == m
    ensures GetBool(r, UsePowerSavingModeKey) == GetBool(m, UsePowerSavingModeKey)
    ensures r.Keys <= m.Keys + {UseDynamicColorsKey, ThemeStyleKey}
    ensures forall k | k in m && k != UseDynamicColorsKey && k != ThemeStyleKey :: k in r && r[k] == m[k]
  {
    if call.write.Fail? then m
    else match call
      case DynamicColorsToggle(_) => DynamicColorsToggled(m)
      case PowerSavingToggle(os, _) => PowerSavingToggled(m, os)
      case ThemeChange(style, _) => ThemeChanged(m, style)
  }

  /** The map after a history of calls, applied in order; it keeps conforming. */
  function Run(m: Preferences, calls: seq<Call>): (r: Preferences)
    requires Conforms(m)
    ensures Conforms(r)
    decreases |calls|
  {
    if calls == [] then m else Run(Step(m, calls[0]), calls[1..])
  }

  lemma {:induction false} RunSnoc(m: Preferences, calls: seq<Call>, last: Call)
    requires Conforms(m)
    ensures Run(m, calls + [last]) == Step(Run(m, calls), last)
    decreases |calls|
  {
    if calls == [] {
      assert calls + [last] == [last];
      assert [last][1..] == [];
    } else {
      assert (calls + [last])[0] == calls[0];
      assert (calls + [last])[1..] == calls[1..] + [last];
      RunSnoc(Step(m, calls[0]), calls[1..], last);
    }
  }

  /**
   * Whatever the history, only the dynamic-colors and theme keys can be added
   * or rewritten; every other stored entry is exactly as it was.
   */
  lemma {:induction false} RunFrame(m: Preferences, calls: seq<Call>)
    requires Conforms(m)
    ensures Run(m, calls).Keys <= m.Keys + {UseDynamicColorsKey, ThemeStyleKey}
    ensures forall k | k in m && k != UseDynamicColorsKey && k != ThemeStyleKey ::
      k in Run(m, calls) && Run(m, calls)[k] == m[k]
    decreases |calls|
  {
    if calls != [] {
      RunFrame(Step(m, calls[0]), calls[1..]);
    }
  }

  /**
   * No history of calls ever changes the stored power-saving flag, so the
   * decoded `usePowerSavingMode` is fixed for the life of the store: the
   * power-saving toggle writes elsewhere.
   */
  lemma {:induction false} RunKeepsPowerSavingMode(m: Preferences, calls: seq<Call>)
    requires Conforms(m)
    ensures GetBool(Run(m, calls), UsePowerSavingModeKey) == GetBool(m, UsePowerSavingModeKey)
    ensures Decode(Run(m, calls)).usePowerSavingMode == Decode(m).usePowerSavingMode
    decreases |calls|
  {
    if calls != [] {
      RunKeepsPowerSavingMode(Step(m, calls[0]), calls[1..]);
    }
  }

  /** The style of the last theme change whose write succeeded, or `fallback` if there is none. */
  function LastTheme(calls: seq<Call>, fallback: ThemeStyleType): ThemeStyleType
    decreases |calls|
  {
    if calls == [] then fallback
    else
      var last := calls[|calls| - 1];
      if last.ThemeChange? && last.write.Pass? then last.style
      else LastTheme(calls[..|calls| - 1], fallback)
  }

  /**
   * Last write wins: after any history the decoded theme is the one of the last
   * successful theme change, or the original theme when there was none.
   */
  lemma {:induction false} RunLastThemeWins(m: Preferences, calls: seq<Call>)
    requires Conforms(m)
    ensures Decode(Run(m, calls)).themeStyle == LastTheme(calls, Decode(m).themeStyle)
    decreases |calls|
  {
    if calls != [] {
      var init, last := calls[..|calls| - 1], calls[|calls| - 1];
      assert calls == init + [last];
      RunSnoc(m, init, last);
      RunLastThemeWins(m, init);
    }
  }

  /** Every call in the history failed to write. */
  predicate AllFailed(calls: seq<Call>) {
    forall i | 0 <= i < |calls| :: calls[i].write.Fail?
  }

  /** A history of failed writes leaves the persisted map exactly as it was. */
  lemma {:induction false} RunFailedCallsChangeNothing(m: Preferences, calls: seq<Call>)
    requires Conforms(m)
    requires AllFailed(calls)
    ensures Run(m, calls) == m
    ensures Decode(Run(m, calls)) == Decode(m)
    decreases |calls|
  {
    if calls != [] {
      assert calls[0].write.Fail?;
      assert AllFailed(calls[1..]) by {
        forall i | 0 <= i < |calls[1..]| ensures calls[1..][i].write.Fail? {
          assert calls[1..][i] == calls[i + 1];
        }
      }
      RunFailedCallsChangeNothing(m, calls[1..]);
    }
  }
}
