# Voyager model-configuration GUI: settings reconciliation in Dafny

This project models the decision logic of the Voyager GPT configuration tool.
The tool lets a user pick a chat model for each of Voyager's five agent slots:
action, curriculum, curriculum question-answering, critic and skill manager.
It then decides which options tab applies, and builds, resets, loads, saves and
renders a configuration record.

- `capabilities.dfy`, module `Capabilities`: the capability classifier.
  It maps a model identifier to four flags: reasoning effort, verbosity,
  store and extra-high reasoning. It is a first-match table with five rules:
  the six legacy identifiers, `gpt-5.2-pro`, `o1`/`o3`/`o4-mini`, `gpt-5.2`,
  and a permissive default for everything else. The table is also given as
  data, with a lemma that the two readings agree.
- `settings_mode.dfy`, module `SettingsMode`: the tab rule and the option
  availability for a selection.
  - The old-settings tab is enabled exactly when every selected model is legacy.
  - The settings tab is enabled otherwise.
  - Each option is available when any selected model supports it.
  - The earlier rule, which enabled the settings tab only when no model was
    legacy, is kept for contrast.
- `config_record.dfy`, module `ConfigRecord`: the configuration record and the
  pure operations of `gui.py`. These are the default record, the record built
  from the selectors, showing a record in the selectors with its fallbacks,
  writing one temperature into every section, and the values substituted into
  the generated script, including the store string's coercion to a boolean.
  A record read from a file may lack any key, so every key is an `Option`.
- `config_window.dfy`, module `ConfigWindow`: class `Window`, the GUI's
  mutable state. It holds the record plus the values of the nine selectors.
  Its methods update that state as `gui.py` does, step by step, and each is
  tied to a function of `ConfigRecord`.

The behaviour follows `gui.py` as written:
- A load replaces the held record before showing it.
- A missing model key therefore leaves the new record held and the earlier
  selectors already updated.
- The saved and rendered record never reads the held record. All five of its
  temperatures are the slider's value, so "apply temperature to all agents"
  changes only the held record.
- After a load, only the action agent's temperature reaches the slider.

The general lemmas cover the selection scenarios of the two test scripts.

## Model

| member | source | states |
|---|---|---|
| `Capabilities.ModelSupport` | test_comprehensive.py:12-23 | store is always granted; reasoning effort iff the model is neither legacy nor `gpt-5.2-pro`; verbosity iff additionally not `o1`/`o3`/`o4-mini`; extra-high reasoning iff the model is `gpt-5.2` |
| `Capabilities.LegacyClassification` | test_comprehensive.py:8-15 | every legacy identifier gets no reasoning, no verbosity, store, no extra-high |
| `Capabilities.ProClassifiedLikeLegacy` | test_comprehensive.py:16-17 | `gpt-5.2-pro` is not in the legacy set yet gets the same record as every legacy model |
| `Capabilities.ClassifierIsFirstMatch` | test_gui_logic.py:17-53 | the classifier equals the first matching row of the ordered table (legacy, pro, o-series, flagship), else the fallback |
| `SettingsMode.AllLegacyMeans` | test_comprehensive.py:65 | the recursive `all` over the selection holds iff every entry is in the legacy set |
| `SettingsMode.AnyLegacyMeans` | test_comprehensive.py:66 | the recursive `any` over the selection holds iff some entry is in the legacy set |
| `SettingsMode.AnySupportsMeans` | test_comprehensive.py:72-75 | an option is available iff some selected model's record grants it |
| `SettingsMode.TabRule` | test_gui_logic.py:78-87 | exactly one tab is enabled; old settings iff every model is legacy, settings iff some model is not |
| `SettingsMode.EarlierTabRule` | test_gui_logic.py:81-83 | the earlier rule: old settings iff all legacy, settings iff none legacy |
| `SettingsMode.MixedEnablesSettings` | test_comprehensive.py:94-102 | a selection with both a legacy and a non-legacy model enables settings and disables old settings |
| `SettingsMode.EarlierRuleLocksMixed` | test_gui_logic.py:101-102 | under the earlier rule a mixed selection disables both tabs |
| `SettingsMode.EarlierRuleNeverBoth` | test_gui_logic.py:99-100 | the earlier rule enables both tabs only for the empty selection |
| `SettingsMode.RulesAgreeUnlessMixed` | test_gui_logic.py:81-87 | on a non-empty selection the two rules agree iff the selection is not mixed |
| `SettingsMode.Resolve` | test_comprehensive.py:65-75 | exactly one tab is enabled; settings iff some model is not legacy; reasoning and verbosity available iff some selected model supports them; store available iff the selection is non-empty |
| `SettingsMode.SameModelsSameResolution` | test_comprehensive.py:65-74 | selections with the same identifiers, in any order and with any duplicates, resolve identically |
| `SettingsMode.FiveReasoningOnlyModels` | test_comprehensive.py:38 | five `o1`: settings tab, reasoning available, verbosity unavailable, store available |
| `ConfigRecord.ClassifiedModelsOffered` | gui.py:18-33 | every legacy model, `gpt-5.2-pro`, `gpt-5.2` and the three o-series models are among the selector choices |
| `ConfigRecord.DefaultConfig` | gui.py:49-73 | the default record is complete, all temperatures are 0, its five models are legacy and selectable, its options lie in their choice lists, and its store coerces to false |
| `ConfigRecord.StoreFlag` | gui.py:396 | the store string becomes true iff it is `true` in any letter case |
| `ConfigRecord.StoreChoicesCoerce` | gui.py:37 | of the two store choices only `true` becomes true |
| `ConfigRecord.RecordOf` | gui.py:260-281 | the record built from the selectors is complete, its five models are the selected ones, its options are the selected ones, and all five temperatures are the single slider value |
| `ConfigRecord.Refreshed` | gui.py:316-329 | showing succeeds iff all five model keys exist; each model selector is updated iff it and every earlier slot's key exist; on failure options and temperature are untouched; on success missing options fall back to the default record's values and the temperature comes from the action section or 0.0 |
| `ConfigRecord.DefaultView` | gui.py:98-179 | the start-up selectors are what showing the default record gives, they save back to the default record, and they select the old-settings tab |
| `ConfigRecord.SaveLoadRoundTrip` | gui.py:263-329 | loading a saved record restores all five models, three options and the temperature |
| `ConfigRecord.LoadSaveKeepsAllButTemperatures` | gui.py:260-329 | loading a complete record and saving again keeps models and options, but every temperature becomes the action agent's |
| `ConfigRecord.ApplyTemperature` | gui.py:250-257 | succeeds iff all four sections exist; a temperature slot takes the new value iff its section and every earlier section (action, curriculum, critic, skill manager) exist, and otherwise keeps its value, so on success all five are equal; models, options and the presence of each section never change |
| `ConfigRecord.Render` | gui.py:383-397 | each model and temperature placeholder takes its record slot; the options block carries reasoning effort, verbosity and the coerced store flag |
| `ConfigWindow.Window.constructor` | gui.py:39-47 | the window starts holding the default record, with the selectors showing it |
| `ConfigWindow.Window.ApplyTemperatureAll` | gui.py:250-258 | the held record becomes `ApplyTemperature` of the old one with the slider value; selectors unchanged |
| `ConfigWindow.Window.ConfigFromSelectors` | gui.py:260-281 | the default record overwritten field by field equals the record of the selectors; it is complete and has uniform temperature |
| `ConfigWindow.Window.ShowConfig` | gui.py:316-330 | the selectors change as `Refreshed` of the held record says; the held record is unchanged |
| `ConfigWindow.Window.LoadConfig` | gui.py:299-314 | the loaded record is held even when showing it fails; the selectors change as `Refreshed` says |
| `ConfigWindow.Window.GenerateCode` | gui.py:332-397 | the generated models are the selected ones, all five temperatures equal the slider, options are the selected strings, and store is their coercion |
| `ConfigWindow.Window.Reset` | gui.py:412-415 | the window holds the default record and the selectors show it |

## Left out

- Window construction, layout, notebook tabs, fonts and label formatting are user interface.
- The user choosing a value in a selector or moving the slider is not an operation of the model. Any selector values are allowed, as a loaded record can put any string there.
- File dialogs, reading and writing JSON files, and message boxes are I/O.
  - Saving is modelled by the record `ConfigFromSelectors` returns.
  - Loading is modelled by the parsed record `LoadConfig` takes.
- A parsed file whose top level is not an object is not modelled.
  Neither is a key holding a value of an unexpected type, such as a number as a model, a null temperature or a JSON boolean store.
  Keys the record does not name are not modelled either.
- Temperatures are reals that are only copied. Python's distinction between the integer `0` of the default record and the float `0.0` of the slider, which the generated script would print differently, is not modelled.
- The fixed boilerplate text of the generated script is not modelled, only the values substituted into it.
- StoreFlag: lowers ASCII letters only, where Python's `lower` covers all of Unicode.
- `gui.py` as shown contains neither the classifier nor the tab rule. Both are modelled from the copies in `test_comprehensive.py` and `test_gui_logic.py`. They are linked to the window's state only through `DefaultView`.
- The aggregation of the extra-high reasoning flag over a selection is not computed by any of the modelled files and is not modelled.
- The following are not implemented by the modelled files and are not modelled:
  - a max-tokens ceiling table;
  - nested settings groups with nulled inactive fields;
  - yes/no/on/off store coercion;
  - forcing disabled options to neutral values;
  - two-view store synchronisation.
- test_gui_fix.py is not part of this model. It imports names that `gui.py` does not define.
- voyager_config_example.py is not part of this model. It holds static example output.
- The printing and pass/fail reporting of the test scripts are not modelled.
