# AdwSettings: the system-settings reconciler of libadwaita

`AdwSettings` is the object libadwaita uses to learn the system's colour-scheme
preference, its high-contrast setting and, on Ubuntu, the accent of the Yaru
GTK theme. It keeps a small set of fields:

- the real values: colour scheme, high contrast, "the system supports colour
  schemes", Yaru accent;
- the override shadow copy: an `override` flag and three `*_override` fields
  that an override session edits in place of the real values;
- which backends were created: platform (the XDG Settings portal), GSettings,
  legacy.

It emits a property notification whenever a value readers can see changes,
with one exception: a theme change during an override session clears the Yaru
accent, which readers do see, without notifying it.

This project models `src/adw-settings.c` in four modules:

- `Wrappers` — `Option`, standing for a C pointer that may be NULL.
- `YaruTheme` — the pure part. It holds the classification of a GTK theme name
  into a Yaru accent (`Accent`) and the `'-'`-splitting it relies on (`Split`,
  a model of `g_strsplit (s, "-", -1)`), together with their properties.
- `SettingsSpec` — the same object as values.
  - A `State` holds the fields.
  - There is one function per operation, returning the new `State` and the
    notifications emitted, in order (`Step`).
  - `Visible` is what the getters show.
  - The construction chain works on a `Build` that carries the found-flags.
  - A `Call` datatype with `Apply`/`Run` describes everything the object
    receives after construction: backend change signals, theme changes and
    the override API.
  - The lemmas state what each operation promises, the object invariant
    `Inv`, and that notifications name exactly the visible changes.
- `AdwSettings` — `class Settings`, with the fields of `struct _AdwSettings`
  updated in place and a ghost log `notified` of property notifications.
  - Each method follows its C function step by step.
  - Each method is proved to produce the state and notifications of the
    matching `SettingsSpec` function.
  - Each method keeps `Valid()` (the invariant) wherever the C code can be
    entered on a constructed object.

Backends, environment variables and theme-name readers are parameters:

- a `Backend` record says whether the backend supplies each setting and with
  which value;
- a `DebugEnv` holds the two `ADW_DEBUG_*` variables (`None` when unset);
- `ThemeSources` holds the theme name each reader would return (`None` when
  the read fails).

## Model

| member | source | states |
|---|---|---|
| YaruTheme.Split | src/adw-settings.c:156 | splitting at every '-' gives at least one piece, no piece contains '-', and joining the pieces with '-' gives back the name |
| YaruTheme.SplitAfterWord | src/adw-settings.c:156-159 | a dash-free word followed by '-' and a tail splits into that word followed by the split of the tail |
| YaruTheme.SplitJoin | src/adw-settings.c:156 | splitting undoes joining for any non-empty list of dash-free pieces |
| YaruTheme.SplitWord | src/adw-settings.c:156-158 | a name without '-' is a single piece |
| YaruTheme.SplitHead | src/adw-settings.c:156-159 | the first piece is the longest dash-free prefix, ended by '-' or by the end of the string |
| YaruTheme.Accent | src/adw-settings.c:149-160 | a theme yields an accent exactly when it is "Yaru" or starts with "Yaru-"; "Yaru" and "Yaru-dark" yield "default" |
| YaruTheme.AccentIsSecondComponent | src/adw-settings.c:153-159 | for every other "Yaru-…" name the accent is the dash-free component starting right after "Yaru-" and running up to the next '-' or the end |
| YaruTheme.AccentOfVariant | src/adw-settings.c:149-160 | "Yaru-" + accent + a suffix starting with '-' (or empty) parses back to that accent, for every dash-free accent, except the reserved name "Yaru-dark" |
| YaruTheme.BareYaruDashIsEmptyAccent | src/adw-settings.c:153-159 | "Yaru-" alone yields the empty accent |
| SettingsSpec.ChangesNamesDifferences | src/adw-settings.c:442-472 | the notification list of two views names each property whose visible value differs and no other, and is empty exactly when the views agree |
| SettingsSpec.SetColorSchemeNotifiesVisibleChange | src/adw-settings.c:52-63 | setting the current value changes nothing and emits nothing; otherwise only the field changes, and the scheme is notified exactly when no override is active, which is exactly when readers see the change |
| SettingsSpec.SetHighContrastNotifiesVisibleChange | src/adw-settings.c:65-76 | the same for high contrast |
| SettingsSpec.ThemeUpdateSetsAccent | src/adw-settings.c:138-165 | outside a session the accent becomes the theme's accent and is notified exactly when it changed; during a session it is cleared and nothing is notified |
| SettingsSpec.SourceOfIsFirstSuccess | src/adw-settings.c:260-273 | the source used is one that succeeds and comes no later than any other that succeeds (portal, then GTK, then GSettings); none is used only when all fail |
| SettingsSpec.AccentRefreshNotifiesVisibleChange | src/adw-settings.c:260-273 | outside a session, re-reading the accent changes only the accent, setting it to the accent of the chosen source's theme name, and notifies exactly a visible change; with no source nothing changes |
| SettingsSpec.StartOverrideSnapshots | src/adw-settings.c:474-487 | starting a session copies the real values into the shadow copy, so readers see no change; the real values stay; a second call does nothing |
| SettingsSpec.EndOverrideNotifiesVisibleChanges | src/adw-settings.c:489-516 | outside a session nothing happens; otherwise the session ends, the shadow copy is reset to FALSE / DEFAULT / FALSE, the accent is re-read from the first theme-name source that answers (kept when none answers), every other field stays, and the notifications are exactly the visible changes in the order supports, colour scheme, high contrast, accent |
| SettingsSpec.EndOverrideKeepsInv | src/adw-settings.c:489-516 | ending a session keeps the object invariant |
| SettingsSpec.OverrideColorSchemeNeedsSupport | src/adw-settings.c:538-552 | the shadow scheme changes only within a session whose overridden system supports colour schemes, and the notification is exactly the visible change |
| SettingsSpec.OverrideSupportsResetsColorScheme | src/adw-settings.c:518-536 | only the shadow support and shadow scheme can change; within a session the shadow support takes the new value; the shadow scheme becomes DEFAULT exactly when support is switched off from on, and stays otherwise; the notifications are the colour-scheme change (first) and the support change |
| SettingsSpec.OverrideSupportsNotifiesVisibleChanges | src/adw-settings.c:518-536 | switching the overridden support notifies each property whose visible value changes, once each, and nothing else |
| SettingsSpec.OverrideSupportsKeepsInv | src/adw-settings.c:518-536 | switching the overridden support keeps the invariant that no support goes with a DEFAULT shadow scheme |
| SettingsSpec.OverrideHighContrastNotifiesVisibleChange | src/adw-settings.c:554-569 | within a session the shadow high contrast takes the new value, notifying exactly a visible change; outside a session nothing happens |
| SettingsSpec.ParseHighContrast | src/adw-settings.c:83-94 | ADW_DEBUG_HIGH_CONTRAST gives TRUE exactly for "1" and FALSE exactly for "0" |
| SettingsSpec.ParseColorScheme | src/adw-settings.c:96-110 | ADW_DEBUG_COLOR_SCHEME gives a scheme exactly when it is that scheme's name ("default", "prefer-dark", "prefer-light") |
| SettingsSpec.InitDebugTakesRecognisedValues | src/adw-settings.c:78-111 | a recognised debug value sets its field and its found-flag; anything else leaves both untouched; nothing is notified |
| SettingsSpec.RegisterImplTakesSuppliedValues | src/adw-settings.c:113-136 | registering a backend takes over each setting it supplies and sets that found-flag; found-flags never go back to false |
| SettingsSpec.RegisterImplNotifiesVisibleChanges | src/adw-settings.c:113-136 | registering a backend appends exactly the visible changes it makes to the notifications |
| SettingsSpec.ConsultFillsMissing | src/adw-settings.c:321-341 | a backend asked only for what is missing fills exactly the unfound settings it supplies and keeps what was found before |
| SettingsSpec.ChainTakesFirstSource | src/adw-settings.c:310-343 | each setting takes the value of the first source that supplies it (debug, platform, GSettings, legacy) and is found exactly when one does; each backend is created exactly when something is still unfound after the sources before it; nothing else leaves its zero value |
| SettingsSpec.ConstructTakesFirstSource | src/adw-settings.c:310-346 | a constructed object is outside any session, satisfies the invariant, supports colour schemes exactly when some source supplied one, holds the first supplied values, has each backend exactly when something was unfound after the sources before it, and holds the accent of the first theme-name source that answers (none when none answers) |
| SettingsSpec.UnsupportedMeansDefault | src/adw-settings.c:442-461 | under the invariant, readers never see "no colour-scheme support" together with a non-DEFAULT scheme |
| SettingsSpec.ApplyKeepsInv | src/adw-settings.c:52-569 | every setter, theme change and override call keeps the invariant |
| SettingsSpec.RunKeepsInv | src/adw-settings.c:52-569 | every sequence of such calls keeps the invariant |
| SettingsSpec.Reachable | src/adw-settings.c:518-552 | every object reachable by construction and calls satisfies the invariant; in particular, while the overridden support is off, the overridden scheme is DEFAULT |
| SettingsSpec.BackendSignalHidden | src/adw-settings.c:52-76 | during a session a backend change leaves the session open, leaves what readers see unchanged and notifies nothing |
| SettingsSpec.OverrideHidesBackendSignals | src/adw-settings.c:52-76 | the same for any sequence of backend changes |
| SettingsSpec.NotifiesVisibleChangesInOrder | src/adw-settings.c:52-569 | every call except a theme change during a session and a change of the overridden support notifies exactly the visible changes, each once, in property-id order |
| SettingsSpec.NotifiesVisibleChanges | src/adw-settings.c:52-569 | every call except a theme change during a session notifies exactly the visible changes, each once |
| SettingsSpec.ThemeChangeDuringOverrideIsSilent | src/adw-settings.c:142-145 | during a session, a theme change drops a set accent, a change readers see, without notifying it |
| SettingsSpec.EmptySessionIsAccentRefresh | src/adw-settings.c:474-516 | a session with no edits, once ended, is the same as re-reading the accent |
| AdwSettings.Settings.constructor | src/adw-settings.c:310-346 | the new object's fields and notifications are those of Construct, and it satisfies the invariant |
| AdwSettings.Settings.RegisterBackends | src/adw-settings.c:319-341 | the debug step and the three backend steps on a zeroed object give the fields, notifications and found-flags of Chain |
| AdwSettings.Settings.TryPlatform | src/adw-settings.c:321-331 | the platform step has the effect of TryPlatform |
| AdwSettings.Settings.TryGSettings | src/adw-settings.c:333-336 | the GSettings step has the effect of TryGSettings |
| AdwSettings.Settings.TryLegacy | src/adw-settings.c:338-341 | the legacy step has the effect of TryLegacy |
| AdwSettings.Settings.SetColorScheme | src/adw-settings.c:52-63 | fields and notifications are those of SetColorScheme; the invariant is kept whenever colour schemes are supported |
| AdwSettings.Settings.SetHighContrast | src/adw-settings.c:65-76 | fields and notifications are those of SetHighContrast; the invariant is kept |
| AdwSettings.Settings.InitDebug | src/adw-settings.c:78-111 | fields and found-flags are those of InitDebug |
| AdwSettings.Settings.RegisterImpl | src/adw-settings.c:113-136 | fields, notifications and found-flags are those of RegisterImpl |
| AdwSettings.Settings.UpdateYaruAccentFromTheme | src/adw-settings.c:138-165 | fields and notifications are those of UpdateYaruAccentFromTheme; the invariant is kept |
| AdwSettings.Settings.UpdateYaruAccent | src/adw-settings.c:260-273 | returns the first source that succeeds; fields and notifications are those of UpdateYaruAccent |
| AdwSettings.Settings.GetSystemSupportsColorSchemes | src/adw-settings.c:441-450 | the shadow value during a session, the real one otherwise |
| AdwSettings.Settings.GetColorScheme | src/adw-settings.c:452-461 | the shadow value during a session, the real one otherwise |
| AdwSettings.Settings.GetHighContrast | src/adw-settings.c:463-472 | the shadow value during a session, the real one otherwise |
| AdwSettings.Settings.GetYaruAccent | src/adw-settings.c:571-575 | the real accent, which sessions do not shadow |
| AdwSettings.Settings.StartOverride | src/adw-settings.c:474-487 | fields are those of StartOverride; nothing is notified; the invariant is kept |
| AdwSettings.Settings.EndOverride | src/adw-settings.c:489-516 | fields and notifications are those of EndOverride; the invariant is kept |
| AdwSettings.Settings.ResetOverride | src/adw-settings.c:496-513 | leaving the session resets the shadow copy and notifies each property whose shadow value differed from the real one, in order |
| AdwSettings.Settings.OverrideSystemSupportsColorSchemes | src/adw-settings.c:518-536 | fields and notifications are those of OverrideSupportsColorSchemes; the invariant is kept |
| AdwSettings.Settings.OverrideColorScheme | src/adw-settings.c:538-552 | fields and notifications are those of OverrideColorScheme; the invariant is kept |
| AdwSettings.Settings.OverrideHighContrast | src/adw-settings.c:554-569 | fields and notifications are those of OverrideHighContrast; the invariant is kept |

## Left out

- GObject plumbing is not modelled: type and property registration (`adw_settings_class_init`, `get_property`), the `adw_settings_get_default` singleton, `dispose` and memory management. Notifications are recorded in a ghost log instead of being emitted.
- Each backend (`adw_settings_impl_*_new`, the portal, GSettings, legacy, macOS and Win32) is a parameter saying what it would supply. The model assumes that a backend created with "enable colour scheme / enable high contrast" claims only the settings it was asked for (`SettingsSpec.Answer`), because the backends' code is not part of this model. Only the portal platform backend is modelled; the macOS and Win32 variants take the same place in the chain.
- `getenv`, GdkDisplay settings, portal and GSettings reads are I/O. They become the `DebugEnv` and `ThemeSources` parameters. The portal source is usable only once the platform backend exists, and the GSettings source only once its backend exists.
- The model does not track whether the portal is enabled or whether the GSettings interface settings exist. A failed read is simply `None`.
- Signal wiring (`g_signal_connect*` in `register_impl` and `init_yaru_accents`) is not modelled. Later signals are modelled as calls (`SettingsSpec.Call`) that run the same setters. A colour-scheme signal is delivered only while the system supports colour schemes. That over-approximates the real wiring: when the debug variable supplied the scheme, no backend signal is connected at all.
- Which source `init_yaru_accents` connects to after the first read is not modelled. Only the first read is (`UpdateYaruAccent` returns the source).
- Logging (`g_warning`, `g_debug`) and `g_return_if_fail`'s message are left out. A failed `g_return_if_fail (self->override)` in an `override_*` setter is modelled as a return without effect. The `ADW_IS_SETTINGS` type checks are left out.
- YaruTheme.Split: the empty string splits into `[""]`, where GLib gives no pieces. The parser never splits an empty name, because it only splits names that start with "Yaru-".
- NULL theme names are not modelled: a theme name that was read is a string.
- AdwSettings.Settings.InitDebug: the string comparisons are done by `ParseHighContrast` and `ParseColorScheme`. An empty ADW_DEBUG_HIGH_CONTRAST, which the C code skips before comparing, is not recognised by either route, so the effect is the same.
- AdwSettings.Settings.SetColorScheme: the invariant is promised only when colour schemes are supported, because no colour-scheme signal arrives otherwise.
- AdwSettings.Settings.RegisterImpl, TryPlatform, TryGSettings, TryLegacy, RegisterBackends and InitDebug run only during construction, before the invariant holds, so they promise no invariant.
