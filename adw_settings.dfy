/**
  AdwSettings as an object: the fields of struct _AdwSettings updated in
  place, with the property notifications it emits kept in a ghost log. Each
  method follows the C function of the same name step by step and is proved
  to have the effect the matching function of SettingsSpec describes.
 */
module AdwSettings {
  import opened Wrappers
  import YaruTheme
  import S = SettingsSpec

  class Settings {
    var platformImpl: bool
    var gsettingsImpl: bool
    var legacyImpl: bool

    var colorScheme: S.SystemColorScheme
    var highContrast: bool
    var systemSupportsColorSchemes: bool

    var yaruAccent: Option<string>

    var override: bool
    var supportsOverride: bool
    var colorSchemeOverride: S.SystemColorScheme
    var highContrastOverride: bool

    /** Every property notification emitted so far, oldest first. */
    ghost var notified: seq<S.Prop>

    /** The fields as a value. */
    function Snapshot(): S.State
      reads this
    {
      S.State(platformImpl, gsettingsImpl, legacyImpl, colorScheme, highContrast,
              systemSupportsColorSchemes, yaruAccent, override, supportsOverride,
              colorSchemeOverride, highContrastOverride)
    }

    /** The object invariant of a constructed AdwSettings. */
    ghost predicate Valid()
      reads this
    {
      S.Inv(Snapshot())
    }

    /** The fields, the notifications so far and the found flags of a construction in progress. */
    ghost function Progress(foundColorScheme: bool, foundHighContrast: bool): S.Build
      reads this
    {
      S.Build(Snapshot(), notified, S.Found(foundColorScheme, foundHighContrast))
    }

    /**
      g_object_new followed by adw_settings_constructed: debug variables,
      the platform, GSettings and legacy backends while something is
      unfound, then colour-scheme support and the first Yaru accent.
     */
    constructor (env: S.DebugEnv, platform: S.Backend, gsettings: S.Backend, legacy: S.Backend,
                 themes: S.ThemeSources)
      ensures Snapshot() == S.Construct(env, platform, gsettings, legacy, themes).state
      ensures notified == S.Construct(env, platform, gsettings, legacy, themes).events
      ensures Valid()
    {
      // adw_settings_init: every field zero
      platformImpl, gsettingsImpl, legacyImpl := false, false, false;
      colorScheme, highContrast, systemSupportsColorSchemes := S.Default, false, false;
      yaruAccent := None;
      override, supportsOverride, colorSchemeOverride, highContrastOverride := false, false, S.Default, false;
      notified := [];
      new;
      var foundColorScheme, foundHighContrast := RegisterBackends(env, platform, gsettings, legacy);
      ghost var c := S.Chain(env, platform, gsettings, legacy);
      systemSupportsColorSchemes := foundColorScheme;
      ghost var ready := Snapshot();
      assert ready == c.state.(systemSupportsColorSchemes := c.found.colorScheme);
      var _ := UpdateYaruAccent(themes);
      assert Snapshot() == S.UpdateYaruAccent(ready, themes).state;
      assert notified == c.events + S.UpdateYaruAccent(ready, themes).events;
      S.ConstructTakesFirstSource(env, platform, gsettings, legacy, themes);
    }

    /**
      The first half of adw_settings_constructed on a freshly initialised
      object: the debug variables, then each backend in turn while a setting
      is still unfound. Returns whether a colour scheme was found.
     */
    method RegisterBackends(env: S.DebugEnv, platform: S.Backend, gsettings: S.Backend, legacy: S.Backend)
      returns (foundColorScheme: bool, foundHighContrast: bool)
      requires Snapshot() == S.Initial && notified == []
      modifies this
      ensures Progress(foundColorScheme, foundHighContrast) == S.Chain(env, platform, gsettings, legacy)
    {
      foundColorScheme, foundHighContrast := InitDebug(env, false, false);
      foundColorScheme, foundHighContrast := TryPlatform(platform, foundColorScheme, foundHighContrast);
      foundColorScheme, foundHighContrast := TryGSettings(gsettings, foundColorScheme, foundHighContrast);
      foundColorScheme, foundHighContrast := TryLegacy(legacy, foundColorScheme, foundHighContrast);
    }

    /** The platform step of adw_settings_constructed: create and register the platform backend if something is unfound. */
    method TryPlatform(platform: S.Backend, foundColorScheme: bool, foundHighContrast: bool)
      returns (foundColorScheme': bool, foundHighContrast': bool)
      modifies this
      ensures Progress(foundColorScheme', foundHighContrast') == S.TryPlatform(old(Progress(foundColorScheme, foundHighContrast)), platform)
    {
      foundColorScheme', foundHighContrast' := foundColorScheme, foundHighContrast;
      if !foundColorScheme || !foundHighContrast {
        platformImpl := true;
        foundColorScheme', foundHighContrast' :=
          RegisterImpl(S.Answer(platform, !foundColorScheme, !foundHighContrast), foundColorScheme, foundHighContrast);
      }
    }

    /** The GSettings step of adw_settings_constructed. */
    method TryGSettings(gsettings: S.Backend, foundColorScheme: bool, foundHighContrast: bool)
      returns (foundColorScheme': bool, foundHighContrast': bool)
      modifies this
      ensures Progress(foundColorScheme', foundHighContrast') == S.TryGSettings(old(Progress(foundColorScheme, foundHighContrast)), gsettings)
    {
      foundColorScheme', foundHighContrast' := foundColorScheme, foundHighContrast;
      if !foundColorScheme || !foundHighContrast {
        gsettingsImpl := true;
        foundColorScheme', foundHighContrast' :=
          RegisterImpl(S.Answer(gsettings, !foundColorScheme, !foundHighContrast), foundColorScheme, foundHighContrast);
      }
    }

    /** The legacy step of adw_settings_constructed. */
    method TryLegacy(legacy: S.Backend, foundColorScheme: bool, foundHighContrast: bool)
      returns (foundColorScheme': bool, foundHighContrast': bool)
      modifies this
      ensures Progress(foundColorScheme', foundHighContrast') == S.TryLegacy(old(Progress(foundColorScheme, foundHighContrast)), legacy)
    {
      foundColorScheme', foundHighContrast' := foundColorScheme, foundHighContrast;
      if !foundColorScheme || !foundHighContrast {
        legacyImpl := true;
        foundColorScheme', foundHighContrast' :=
          RegisterImpl(S.Answer(legacy, !foundColorScheme, !foundHighContrast), foundColorScheme, foundHighContrast);
      }
    }

    /** set_color_scheme: store a new value, notify it unless an override session hides it. */
    method SetColorScheme(colorScheme: S.SystemColorScheme)
      modifies this
      ensures Snapshot() == S.SetColorScheme(old(Snapshot()), colorScheme).state
      ensures notified == old(notified) + S.SetColorScheme(old(Snapshot()), colorScheme).events
      ensures old(Valid()) && systemSupportsColorSchemes ==> Valid()
    {
      if colorScheme == this.colorScheme {
        return;
      }
      this.colorScheme := colorScheme;
      if !override {
        notified := notified + [S.ColorSchemeProp];
      }
    }

    /** set_high_contrast: store a new value, notify it unless an override session hides it. */
    method SetHighContrast(highContrast: bool)
      modifies this
      ensures Snapshot() == S.SetHighContrast(old(Snapshot()), highContrast).state
      ensures notified == old(notified) + S.SetHighContrast(old(Snapshot()), highContrast).events
      ensures old(Valid()) ==> Valid()
    {
      if highContrast == this.highContrast {
        return;
      }
      this.highContrast := highContrast;
      if !override {
        notified := notified + [S.HighContrastProp];
      }
    }

    /**
      init_debug: a recognised debug value sets its field and found flag,
      without notification; the string comparisons are ParseHighContrast and
      ParseColorScheme, and an unrecognised value is only warned about.
     */
    method InitDebug(env: S.DebugEnv, foundColorScheme: bool, foundHighContrast: bool)
      returns (foundColorScheme': bool, foundHighContrast': bool)
      modifies this
      ensures Progress(foundColorScheme', foundHighContrast') == S.InitDebug(old(Progress(foundColorScheme, foundHighContrast)), env)
    {
      foundColorScheme', foundHighContrast' := foundColorScheme, foundHighContrast;
      var highContrastValue := S.ParseHighContrast(env.highContrast);
      if highContrastValue.Some? {
        foundHighContrast' := true;
        highContrast := highContrastValue.value;
      }
      var colorSchemeValue := S.ParseColorScheme(env.colorScheme);
      if colorSchemeValue.Some? {
        foundColorScheme' := true;
        colorScheme := colorSchemeValue.value;
      }
    }

    /** register_impl: take over what the backend supplies through the setters and mark it found. */
    method RegisterImpl(impl: S.Backend, foundColorScheme: bool, foundHighContrast: bool)
      returns (foundColorScheme': bool, foundHighContrast': bool)
      modifies this
      ensures Progress(foundColorScheme', foundHighContrast') == S.RegisterImpl(old(Progress(foundColorScheme, foundHighContrast)), impl)
    {
      foundColorScheme', foundHighContrast' := foundColorScheme, foundHighContrast;
      if impl.hasColorScheme {
        foundColorScheme' := true;
        SetColorScheme(impl.colorScheme);
      }
      if impl.hasHighContrast {
        foundHighContrast' := true;
        SetHighContrast(impl.highContrast);
      }
    }

    /** update_yaru_accent_from_theme: during a session the accent is dropped silently. */
    method UpdateYaruAccentFromTheme(themeName: string)
      modifies this
      ensures Snapshot() == S.UpdateYaruAccentFromTheme(old(Snapshot()), themeName).state
      ensures notified == old(notified) + S.UpdateYaruAccentFromTheme(old(Snapshot()), themeName).events
      ensures old(Valid()) ==> Valid()
    {
      var oldAccent := yaruAccent;
      yaruAccent := None;
      if override {
        return;
      }
      yaruAccent := YaruTheme.Accent(themeName);
      if oldAccent != yaruAccent {
        notified := notified + [S.YaruAccentProp];
      }
    }

    /** update_yaru_accent: the portal, then GTK, then GSettings; the first that answers is used. */
    method UpdateYaruAccent(themes: S.ThemeSources) returns (source: S.AccentSource)
      modifies this
      ensures source == S.SourceOf(old(Snapshot()), themes)
      ensures Snapshot() == S.UpdateYaruAccent(old(Snapshot()), themes).state
      ensures notified == old(notified) + S.UpdateYaruAccent(old(Snapshot()), themes).events
    {
      if platformImpl && themes.portal.Some? {
        UpdateYaruAccentFromTheme(themes.portal.value);
        return S.PortalSource;
      }
      if themes.gtk.Some? {
        UpdateYaruAccentFromTheme(themes.gtk.value);
        return S.GtkSource;
      }
      if gsettingsImpl && themes.gsettings.Some? {
        UpdateYaruAccentFromTheme(themes.gsettings.value);
        return S.GSettingsSource;
      }
      return S.NoSource;
    }

    /** adw_settings_get_system_supports_color_schemes */
    function GetSystemSupportsColorSchemes(): (r: bool)
      reads this
      ensures override ==> r == supportsOverride
      ensures !override ==> r == systemSupportsColorSchemes
      ensures r == S.Visible(Snapshot()).supportsColorSchemes
    {
      if override then supportsOverride else systemSupportsColorSchemes
    }

    /** adw_settings_get_color_scheme */
    function GetColorScheme(): (r: S.SystemColorScheme)
      reads this
      ensures override ==> r == colorSchemeOverride
      ensures !override ==> r == colorScheme
      ensures r == S.Visible(Snapshot()).colorScheme
    {
      if override then colorSchemeOverride else colorScheme
    }

    /** adw_settings_get_high_contrast */
    function GetHighContrast(): (r: bool)
      reads this
      ensures override ==> r == highContrastOverride
      ensures !override ==> r == highContrast
      ensures r == S.Visible(Snapshot()).highContrast
    {
      if override then highContrastOverride else highContrast
    }

    /** adw_settings_get_yaru_accent: not shadowed by override sessions. */
    function GetYaruAccent(): (r: Option<string>)
      reads this
      ensures r == S.Visible(Snapshot()).yaruAccent
    {
      yaruAccent
    }

    /** adw_settings_start_override */
    method StartOverride()
      requires Valid()
      modifies this
      ensures Snapshot() == S.StartOverride(old(Snapshot()))
      ensures notified == old(notified)
      ensures Valid()
    {
      if override {
        return;
      }
      override := true;
      supportsOverride := systemSupportsColorSchemes;
      colorSchemeOverride := colorScheme;
      highContrastOverride := highContrast;
    }

    /** adw_settings_end_override */
    method EndOverride(themes: S.ThemeSources)
      requires Valid()
      modifies this
      ensures Snapshot() == S.EndOverride(old(Snapshot()), themes).state
      ensures notified == old(notified) + S.EndOverride(old(Snapshot()), themes).events
      ensures Valid()
    {
      if !override {
        return;
      }
      ghost var before := Snapshot();
      ResetOverride();
      var _ := UpdateYaruAccent(themes);
      S.AppendAssoc(old(notified), S.LeaveOverride(before).events,
                    S.UpdateYaruAccent(S.LeaveOverride(before).state, themes).events);
      S.EndOverrideKeepsInv(before, themes);
    }

    /**
      The first half of adw_settings_end_override: leave the session, reset
      the shadow copy and notify each property whose override differed from
      the real value.
     */
    method ResetOverride()
      requires override
      modifies this
      ensures Snapshot() == S.LeaveOverride(old(Snapshot())).state
      ensures notified == old(notified) + S.LeaveOverride(old(Snapshot())).events
    {
      var notifySupports := supportsOverride != systemSupportsColorSchemes;
      var notifyColorScheme := colorSchemeOverride != colorScheme;
      var notifyHighContrast := highContrastOverride != highContrast;

      override := false;
      supportsOverride := false;
      colorSchemeOverride := S.Default;
      highContrastOverride := false;

      ghost var f1 := S.Flag(notifySupports, S.SupportsColorSchemesProp);
      ghost var f2 := S.Flag(notifyColorScheme, S.ColorSchemeProp);
      ghost var f3 := S.Flag(notifyHighContrast, S.HighContrastProp);
      S.AppendAssoc(old(notified), f1, f2);
      S.AppendAssoc(old(notified), f1 + f2, f3);
      notified := notified + f1 + f2 + f3;
    }

    /** adw_settings_override_system_supports_color_schemes */
    method OverrideSystemSupportsColorSchemes(supports: bool)
      requires Valid()
      modifies this
      ensures Snapshot() == S.OverrideSupportsColorSchemes(old(Snapshot()), supports).state
      ensures notified == old(notified) + S.OverrideSupportsColorSchemes(old(Snapshot()), supports).events
      ensures Valid()
    {
      if !override {
        return;  // refused: no override session
      }
      if supports == supportsOverride {
        return;
      }
      ghost var before := Snapshot();
      if !supports {
        OverrideColorScheme(S.Default);
      }
      ghost var reset := if !supports then S.OverrideColorScheme(before, S.Default) else S.Step(before, []);
      supportsOverride := supports;
      S.AppendAssoc(old(notified), reset.events, [S.SupportsColorSchemesProp]);
      notified := notified + [S.SupportsColorSchemesProp];
      S.OverrideSupportsKeepsInv(before, supports);
    }

    /** adw_settings_override_color_scheme */
    method OverrideColorScheme(colorScheme: S.SystemColorScheme)
      requires Valid()
      modifies this
      ensures Snapshot() == S.OverrideColorScheme(old(Snapshot()), colorScheme).state
      ensures notified == old(notified) + S.OverrideColorScheme(old(Snapshot()), colorScheme).events
      ensures Valid()
    {
      if !override {
        return;  // refused: no override session
      }
      if colorScheme == colorSchemeOverride || !supportsOverride {
        return;
      }
      colorSchemeOverride := colorScheme;
      notified := notified + [S.ColorSchemeProp];
    }

    /** adw_settings_override_high_contrast */
    method OverrideHighContrast(highContrast: bool)
      requires Valid()
      modifies this
      ensures Snapshot() == S.OverrideHighContrast(old(Snapshot()), highContrast).state
      ensures notified == old(notified) + S.OverrideHighContrast(old(Snapshot()), highContrast).events
      ensures Valid()
    {
      if !override {
        return;  // refused: no override session
      }
      if highContrast == highContrastOverride {
        return;
      }
      highContrastOverride := highContrast;
      notified := notified + [S.HighContrastProp];
    }
  }
}
