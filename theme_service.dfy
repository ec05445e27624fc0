/**
 * The theme service: the name of the chosen preset and the saved custom
 * theme live in the key-value store under two keys, and the theme in use
 * is a module-level variable that every operation may replace.
 */
module ThemeService {
  import opened Optional
  import opened Gradients

  /** The store keys. */
  const ThemePresetKey: string := "ipredict_theme_preset"
  const CustomThemeKey: string := "ipredict_custom_theme"
  /** The preset name that designates the saved custom theme. */
  const CustomName: string := "custom"

  /** The two store entries and the theme in use. The custom theme is kept
      as the theme its JSON text encodes. */
  datatype ThemeState = ThemeState(presetEntry: Option<string>, customEntry: Option<Theme>, current: Theme)

  /** The state right after the module loads: the store as it was left,
      the default preset in use. */
  function Loaded(presetEntry: Option<string>, customEntry: Option<Theme>): (s: ThemeState)
    ensures s.presetEntry == presetEntry && s.customEntry == customEntry
    ensures s.current == DefaultPreset
  {
    ThemeState(presetEntry, customEntry, DefaultPreset)
  }

  /** `getCurrentThemePresetName`: the stored name; `'default'` when nothing,
      or the empty string, is stored. */
  function PresetNameOf(s: ThemeState): (name: string)
    ensures name != ""
    ensures s.presetEntry.Some? && s.presetEntry.value != "" ==> name == s.presetEntry.value
    ensures s.presetEntry.None? || s.presetEntry == Some("") ==> name == "default"
  {
    match s.presetEntry
    case Some(n) => if n != "" then n else "default"
    case None => "default"
  }

  /** `setThemePreset` on the state: 'custom' loads the saved custom theme
      when there is one, a preset name applies that preset, any other name
      applies the default preset and is stored as 'default'. */
  function SetPreset(s: ThemeState, presetName: string): (t: ThemeState)
    ensures t.customEntry == s.customEntry
    ensures presetName == CustomName || presetName in PresetNames ==> t.presetEntry == Some(presetName)
    ensures presetName != CustomName && presetName !in PresetNames ==> t.presetEntry == Some("default")
    ensures presetName == CustomName && s.customEntry.Some? ==> t.current == s.customEntry.value
    ensures presetName == CustomName && s.customEntry.None? ==> t.current == s.current
    ensures presetName != CustomName ==> t.current == PresetNamed(t.presetEntry.value).value
  {
    if presetName == CustomName then
      ThemeState(Some(CustomName), s.customEntry, if s.customEntry.Some? then s.customEntry.value else s.current)
    else if PresetNamed(presetName).Some? then
      ThemeState(Some(presetName), s.customEntry, PresetNamed(presetName).value)
    else
      ThemeState(Some("default"), s.customEntry, DefaultPreset)
  }

  /** `saveCustomTheme`: the theme is stored, applied, and 'custom' becomes
      the stored preset name. */
  function SaveCustom(s: ThemeState, theme: Theme): (t: ThemeState)
    ensures t.customEntry == Some(theme) && t.current == theme
    ensures PresetNameOf(t) == CustomName
  {
    ThemeState(Some(CustomName), Some(theme), theme)
  }

  /** `initTheme`: the stored preset name applied again. */
  function Init(s: ThemeState): ThemeState
  {
    SetPreset(s, PresetNameOf(s))
  }

  /** The preset name stored after a switch is always one `setThemePreset`
      accepts as it is. */
  lemma StoredNameAccepted(s: ThemeState, presetName: string)
    ensures var t := SetPreset(s, presetName);
      t.presetEntry.Some? && (t.presetEntry.value == CustomName || t.presetEntry.value in PresetNames)
      && PresetNameOf(t) == t.presetEntry.value
  {
  }

  /** Choosing the same preset twice leaves the state of choosing it once. */
  lemma SetPresetIdempotent(s: ThemeState, presetName: string)
    ensures SetPreset(SetPreset(s, presetName), presetName) == SetPreset(s, presetName)
  {
  }

  /** Re-initialising right after a switch changes nothing. */
  lemma InitAfterSetPreset(s: ThemeState, presetName: string)
    ensures Init(SetPreset(s, presetName)) == SetPreset(s, presetName)
  {
    StoredNameAccepted(s, presetName);
  }

  /** Re-initialising right after saving a custom theme changes nothing. */
  lemma InitAfterSave(s: ThemeState, theme: Theme)
    ensures Init(SaveCustom(s, theme)) == SaveCustom(s, theme)
  {
  }

  /** A saved custom theme comes back when 'custom' is chosen again after
      any other preset. */
  lemma CustomThemeRestored(s: ThemeState, theme: Theme, other: string)
    ensures SetPreset(SetPreset(SaveCustom(s, theme), other), CustomName).current == theme
  {
  }

  /** The theme in use is the one the store designates: the custom theme
      under 'custom' (when one is saved) and the named preset otherwise. */
  ghost predicate Coherent(s: ThemeState) {
    match s.presetEntry
    case Some(n) =>
      if n == CustomName then s.customEntry.Some? ==> s.current == s.customEntry.value
      else n in PresetNames && s.current == PresetNamed(n).value
    case None => s.current == DefaultPreset
  }

  /** Every operation keeps the theme in use coherent with the store. */
  lemma OperationsKeepCoherent(s: ThemeState, presetName: string, theme: Theme)
    ensures Coherent(Loaded(None, None))
    ensures Coherent(SetPreset(s, presetName))
    ensures Coherent(SaveCustom(s, theme))
    ensures Coherent(s) ==> Coherent(Init(s))
  {
  }

  /** After a restart (the module loads with the default preset and
      `initTheme` runs), the theme of a coherent state comes back, unless
      'custom' is stored without a saved custom theme; a stored name comes
      back as well, and an empty store now holds 'default'. */
  lemma {:induction false} RestartRestoresTheme(s: ThemeState)
    requires Coherent(s)
    requires s.presetEntry == Some(CustomName) ==> s.customEntry.Some?
    ensures var t := Init(Loaded(s.presetEntry, s.customEntry));
      t.current == s.current && t.customEntry == s.customEntry
      && (s.presetEntry.Some? ==> t == s)
      && (s.presetEntry.None? ==> t.presetEntry == Some("default"))
  {
    match s.presetEntry
    case Some(n) =>
      if n != CustomName {
        assert n != "";
      }
    case None =>
  }

  /** What an operation of the service reports, and the state it leaves. */
  datatype Outcome = Outcome(ok: bool, state: ThemeState)

  /** `setThemePreset` as written. `CurrentGradients` is an imported
      binding, which is read-only, so each assignment to it throws and the
      `catch` answers false before the name is stored. The only switch that
      assigns nothing, choosing 'custom' with no custom theme saved, stores
      the name and succeeds. */
  function SetPresetAsWritten(s: ThemeState, presetName: string): (o: Outcome)
    ensures o.ok <==> presetName == CustomName && s.customEntry.None?
    ensures o.ok ==> o.state == SetPreset(s, presetName)
    ensures !o.ok ==> o.state == s
  {
    if presetName == CustomName && s.customEntry.None? then
      Outcome(true, s.(presetEntry := Some(CustomName)))
    else
      Outcome(false, s)
  }

  /** `saveCustomTheme` as written: the JSON is stored, then the assignment
      to the imported binding throws, so the theme is not applied,
      'custom' is not stored and the answer is false. */
  function SaveCustomAsWritten(s: ThemeState, theme: Theme): (o: Outcome)
    ensures !o.ok
    ensures o.state.customEntry == SaveCustom(s, theme).customEntry
    ensures o.state.presetEntry == s.presetEntry && o.state.current == s.current
  {
    Outcome(false, s.(customEntry := Some(theme)))
  }

  /** `initTheme` as written: the stored name goes through the failing
      switch, and its answer is ignored. */
  function InitAsWritten(s: ThemeState): (t: ThemeState)
    ensures t.current == s.current && t.customEntry == s.customEntry
  {
    SetPresetAsWritten(s, PresetNameOf(s)).state
  }

  /** As written, switching to a preset never takes effect: the answer is
      false and nothing changes, where the intended switch applies the
      preset and stores its name. */
  lemma PresetSwitchFailsAsWritten(s: ThemeState, presetName: string)
    requires presetName in PresetNames
    ensures SetPresetAsWritten(s, presetName) == Outcome(false, s)
    ensures SetPreset(s, presetName).presetEntry == Some(presetName)
      && SetPreset(s, presetName).current == PresetNamed(presetName).value
  {
  }

  /** As written, a saved custom theme never comes back: after saving it,
      choosing 'custom' fails and the theme in use stays as it was. */
  lemma CustomThemeLostAsWritten(s: ThemeState, theme: Theme)
    ensures var saved := SaveCustomAsWritten(s, theme).state;
      !SetPresetAsWritten(saved, CustomName).ok
      && SetPresetAsWritten(saved, CustomName).state.current == s.current
  {
  }

  /** As written, after a restart the default preset stays in use whatever
      the store holds; with 'blueOcean' stored, the intended restart
      applies the blue ocean preset instead. */
  lemma RestartKeepsDefaultAsWritten(presetEntry: Option<string>, customEntry: Option<Theme>)
    ensures InitAsWritten(Loaded(presetEntry, customEntry)).current == DefaultPreset
    ensures presetEntry == Some("blueOcean") ==> Init(Loaded(presetEntry, customEntry)).current == BlueOcean
  {
  }

  /** As written, the store can name 'custom' with a custom theme saved
      while the default preset stays in use: choose 'custom' before any
      custom theme is saved, then save one. */
  lemma IncoherentAsWritten(theme: Theme)
    requires theme != DefaultPreset
    ensures var chosen := SetPresetAsWritten(Loaded(None, None), CustomName);
      var t := SaveCustomAsWritten(chosen.state, theme).state;
      chosen.ok && !Coherent(t)
  {
  }

  /** The service: the two store entries and `CurrentGradients`. */
  class ThemeStore {
    /** The value under `ThemePresetKey`, if any. */
    var presetEntry: Option<string>
    /** The theme encoded by the value under `CustomThemeKey`, if any. */
    var customEntry: Option<Theme>
    /** `CurrentGradients`. */
    var current: Theme

    function State(): ThemeState
      reads this
    {
      ThemeState(presetEntry, customEntry, current)
    }

    /** Module load over a persisted store. */
    constructor (storedPreset: Option<string>, storedCustom: Option<Theme>)
      ensures State() == Loaded(storedPreset, storedCustom)
    {
      presetEntry := storedPreset;
      customEntry := storedCustom;
      current := DefaultPreset;
    }

    method GetCurrentThemePresetName() returns (name: string)
      ensures name == PresetNameOf(State())
    {
      var stored := presetEntry;
      if stored.Some? && stored.value != "" {
        name := stored.value;
      } else {
        name := "default";
      }
    }

    method SetThemePreset(presetName: string) returns (ok: bool)
      modifies this
      ensures ok
      ensures State() == SetPreset(old(State()), presetName)
    {
      var name := presetName;
      if name == CustomName {
        var customTheme := customEntry;
        if customTheme.Some? {
          current := customTheme.value;
        }
      } else if PresetNamed(name).Some? {
        current := PresetNamed(name).value;
      } else {
        current := DefaultPreset;
        name := "default";
      }
      presetEntry := Some(name);
      ok := true;
    }

    method SaveCustomTheme(customTheme: Theme) returns (ok: bool)
      modifies this
      ensures ok
      ensures State() == SaveCustom(old(State()), customTheme)
    {
      customEntry := Some(customTheme);
      current := customTheme;
      presetEntry := Some(CustomName);
      ok := true;
    }

    /** `setThemePreset` as written (see `SetPresetAsWritten`). */
    method SetThemePresetAsWritten(presetName: string) returns (ok: bool)
      modifies this
      ensures ok == SetPresetAsWritten(old(State()), presetName).ok
      ensures State() == SetPresetAsWritten(old(State()), presetName).state
    {
      var name := presetName;
      if name == CustomName {
        var customTheme := customEntry;
        if customTheme.Some? {
          // the assignment to the imported binding throws
          return false;
        }
      } else {
        // both remaining branches assign to the imported binding and throw
        return false;
      }
      presetEntry := Some(name);
      ok := true;
    }

    /** `saveCustomTheme` as written (see `SaveCustomAsWritten`). */
    method SaveCustomThemeAsWritten(customTheme: Theme) returns (ok: bool)
      modifies this
      ensures ok == SaveCustomAsWritten(old(State()), customTheme).ok
      ensures State() == SaveCustomAsWritten(old(State()), customTheme).state
    {
      customEntry := Some(customTheme);
      // the assignment to the imported binding throws
      ok := false;
    }

    /** `initTheme` as written. */
    method InitThemeAsWritten()
      modifies this
      ensures State() == InitAsWritten(old(State()))
    {
      var presetName := GetCurrentThemePresetName();
      var _ := SetThemePresetAsWritten(presetName);
    }

    method InitTheme()
      modifies this
      ensures State() == Init(old(State()))
    {
      var presetName := GetCurrentThemePresetName();
      var _ := SetThemePreset(presetName);
    }
  }
}
