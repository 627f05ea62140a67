# Lean stream canvas: a Dafny model of the dashboard's logic

The dashboard maps a value stream: a list of process stages with lead time and
work in progress (WIP), and pages that analyse it. This project models the parts
of its front end that compute or change state, and proves what they promise.

- **Process editor** (`process_editor.dfy`, module `ProcessEditing`). The dialog
  that edits a working copy of the stage list. `class ProcessEditor` has the
  component's state as fields: `stages`, `editingStage`, `isAddingNew` and
  `formData`. Its methods are the event handlers. The list edits
  (append, map-by-id, filter-by-id) are pure functions with their own
  contracts and lemmas.
- **What-if simulator** (`optimize.dfy`, module `Optimize`). This covers
  `calculateSimulatedMetrics`, the three slider handlers and the two badge
  colour maps. The page computes in decimals. Every input is a whole number,
  so the model computes exactly in tenths, and `Math.round` of a rational
  becomes `RoundDiv`.
- **Localization** (`localization.dfy`, module `Localization`). This covers:
  - the English translation table, section by section;
  - the lookup `t`, which falls back to the key itself;
  - the text direction `dir`;
  - `class LanguageProvider`, which holds the selected language.
- **Bottleneck analysis** (`bottlenecks.dfy`, module `Bottlenecks`). This
  covers the built-in catalog, the per-severity counts, the rounded average
  impact and the severity badge colours.
- **Settings** (`settings.dfy`, module `Settings`). This covers the initial
  draft, the input handlers that replace the draft with an updated copy, and
  `handleSave`.
- **Shared pieces.**
  - `types.dfy` (module `Types`) holds the record shapes of
    `src/types/index.ts`.
  - `js_semantics.dfy` (module `JsSemantics`) holds the JavaScript built-ins
    the core relies on:
    - `Math.round` of a quotient, with ties going up;
    - `parseInt` with no radix, following section 19.2.5 of ECMA-262:
      leading white space, a sign, an optional `0x` prefix and the longest
      run of digits;
    - the `parseInt(text) || 0` coercion of the number inputs;
    - decimal numerals, used to state round trips.

Clock readings and the theme provider's current value are parameters. The
clock is `Date.now()`, passed as `now`. The theme is next-themes' `theme`,
passed as `providerTheme`.

## Model

| member | source | states |
|---|---|---|
| JsSemantics.RoundDiv | src/pages/Optimize.tsx:98-100 | `Math.round(n / d)`: the result is the integer nearest to n/d, and an exact half goes up. |
| JsSemantics.RoundDivUnique | src/pages/Optimize.tsx:98-100 | Any integer within half of n/d (ties counted upward) is the rounded value. |
| JsSemantics.RoundDivExact | src/pages/Bottlenecks.tsx:174 | Rounding an exact quotient m·d / d gives m. |
| JsSemantics.RoundDivMonotone | src/pages/Optimize.tsx:98-100 | Rounding keeps order: n1 ≤ n2 gives round(n1/d) ≤ round(n2/d). |
| JsSemantics.ParseInt | src/components/ProcessEditor.tsx:136 | `parseInt(text)` with no radix: leading white space is skipped, then an optional sign, then a "0x"/"0X" prefix selects hexadecimal. The longest digit run is read; with no digit the result is NaN (None). |
| JsSemantics.CoerceNumeric | src/components/ProcessEditor.tsx:136 | `parseInt(text) \|\| 0` is 0 exactly when parsing gives NaN or 0; otherwise it is the parsed integer. |
| JsSemantics.NaturalStringValue | src/components/ProcessEditor.tsx:136 | The digits of a decimal numeral evaluate back to its number. |
| JsSemantics.ParseIntDecimal | src/components/ProcessEditor.tsx:136 | `parseInt` reads any decimal numeral back as its number, negative ones included, whatever follows, provided it starts with neither a decimal digit nor an `x`/`X` ("0x" would be a hexadecimal prefix). |
| JsSemantics.CoerceDecimal | src/components/ProcessEditor.tsx:144 | A typed decimal numeral is stored as its number, negative values included. |
| JsSemantics.CoerceWithoutDigits | src/components/ProcessEditor.tsx:227 | Text without a digit (such as a cleared input) parses to NaN and is stored as 0. |
| ProcessEditing.AppendStage | src/components/ProcessEditor.tsx:58-66 | A new stage is appended at the end. It has the given id, takes name, lead time and WIP from the form, and its position is the old length. Earlier stages are untouched. |
| ProcessEditing.UpdateById | src/components/ProcessEditor.tsx:67-72 | Stages with the edited id get the form's name, lead time and WIP. They keep their id and position, and every other stage is identical. The length is kept, and an id no stage has leaves the list unchanged. |
| ProcessEditing.RemoveById | src/components/ProcessEditor.tsx:53-55 | Every stage with the id goes and every other stage stays. An absent id leaves the list unchanged. |
| ProcessEditing.RemoveByIdConcat | src/components/ProcessEditor.tsx:54 | Removal works piece by piece, so the remaining stages keep their original order. |
| ProcessEditing.AppendAndUpdateKeepRanked | src/components/ProcessEditor.tsx:58-72 | Appending and editing keep every position equal to its index. |
| ProcessEditing.RemoveKeepsIncreasing | src/components/ProcessEditor.tsx:53-55 | Deleting keeps positions strictly increasing along the list. |
| ProcessEditing.RemoveMiddleLeavesGap | src/components/ProcessEditor.tsx:53-55 | Deleting the middle of positions 0, 1, 2 leaves positions 0 and 2, with no renumbering. |
| ProcessEditing.DeleteThenAppendRepeatsPosition | src/components/ProcessEditor.tsx:53-66 | A later add reuses position 2 after that deletion, so two stages share a position. |
| ProcessEditing.ProcessEditor.constructor | src/components/ProcessEditor.tsx:23-34 | The working copy starts as the committed list, with no form open and a blank draft. |
| ProcessEditing.ProcessEditor.HandleAdd | src/components/ProcessEditor.tsx:37-41 | Opens the add form with a blank draft and closes the edit form. The list is unchanged and the two modes stay exclusive. |
| ProcessEditing.ProcessEditor.HandleEdit | src/components/ProcessEditor.tsx:43-51 | Opens the edit form on the stage with its fields loaded and closes the add form. The list is unchanged and the modes stay exclusive. |
| ProcessEditing.ProcessEditor.HandleDelete | src/components/ProcessEditor.tsx:53-55 | The working copy becomes the list without that id. Nothing else changes. |
| ProcessEditing.ProcessEditor.HandleSaveStage | src/components/ProcessEditor.tsx:57-78 | Add mode appends a stage built from the draft. Edit mode overwrites the edited id. With neither mode the list is unchanged. The session always ends idle, with a blank draft. |
| ProcessEditing.ProcessEditor.HandleCancel | src/components/ProcessEditor.tsx:80-84 | Closes both forms and blanks the draft. The list is unchanged. |
| ProcessEditing.ProcessEditor.HandleSaveAll | src/components/ProcessEditor.tsx:86-89 | `onSave` receives exactly the current working copy, and the session state is unchanged. |
| ProcessEditing.ProcessEditor.HandleClose | src/components/ProcessEditor.tsx:91-95 | Discards all edits: the working copy is the committed list again, and the session is idle. |
| ProcessEditing.ProcessEditor.SetFormName | src/components/ProcessEditor.tsx:127-129 | Sets the draft's name and nothing else. |
| ProcessEditing.ProcessEditor.SetFormLeadTime | src/components/ProcessEditor.tsx:135-137 | Sets the draft's lead time to `parseInt(value) \|\| 0` and nothing else. |
| ProcessEditing.ProcessEditor.SetFormWip | src/components/ProcessEditor.tsx:143-145 | Sets the draft's WIP to `parseInt(value) \|\| 0` and nothing else. |
| ProcessEditing.EditingSession | src/components/ProcessEditor.tsx:37-95 | A whole session: add a stage, type its name and lead time, leave WIP empty, save and hand over. The result is the committed list plus one stage (new id, those fields, WIP 0, position = old length). Closing instead gives back the committed list. |
| ProcessEditing.SameMillisecondAdds | src/components/ProcessEditor.tsx:60 | Two adds saved with the same clock reading give both new stages the same id, `stage-<now>`. |
| ProcessEditing.NewStageId | src/components/ProcessEditor.tsx:60 | `` `stage-${Date.now()}` ``: the id is "stage-" followed by the decimal digits of the clock reading. |
| ProcessEditing.NewStageIdInjective | src/components/ProcessEditor.tsx:60 | Different clock readings give different ids, so ids collide only within one millisecond. |
| Optimize.Simulate | src/pages/Optimize.tsx:86-102 | Lead time is at least 150, cycle time at least 20 and efficiency at most 100. Each metric equals its rounded projection unless its clamp binds. |
| Optimize.InitialProjection | src/pages/Optimize.tsx:26-30 | The initial sliders (5, 30, 40) project exactly the current metrics (208, 34, 87). |
| Optimize.TieRoundsUp | src/pages/Optimize.tsx:99 | A total impact of 10 gives cycle time round(32.5) = 33. |
| Optimize.SimulateMonotone | src/pages/Optimize.tsx:91-100 | Raising sliders never raises lead time or cycle time and never lowers efficiency. |
| Optimize.RoundedMonotone | src/pages/Optimize.tsx:91-100 | The same monotonicity for the rounded projections before clamping. |
| Optimize.CornerProjections | src/pages/Optimize.tsx:86-102 | At (10, 100, 100) the projection is (154, 24, 94). At (3, 0, 0) it is (234, 39, 84). |
| Optimize.ClampsInactiveOnSliders | src/pages/Optimize.tsx:203-204 | Within the slider ranges no clamp binds, and every metric lies between its two corner values. |
| Optimize.OnSliderChange | src/pages/Optimize.tsx:200-201 | A slider's handler sets that slider's field and keeps the other two. |
| Optimize.ImpactColor | src/pages/Optimize.tsx:128-137 | getImpactColor: high is green, medium blue and low grey text. |
| Optimize.EffortColor | src/pages/Optimize.tsx:139-148 | getEffortColor: high effort is the destructive badge variant, medium the default one and low the secondary one. |
| Optimize.SliderValuesDetermine | src/pages/Optimize.tsx:26-30 | The three slider readings determine the record, so the handler's result is fully specified. |
| Optimize.ColorsDistinguishLevels | src/pages/Optimize.tsx:128-148 | Impact colours and effort variants each give distinct levels distinct outputs. |
| Localization.Lookup | src/contexts/LanguageContext.tsx:13-210 | A property lookup in an object literal finds nothing exactly when no pair has the key. Otherwise it gives the text of the last pair with that key. |
| Localization.English | src/contexts/LanguageContext.tsx:13-210 | The English table: the 185 key/text pairs of the `en` object literal, in source order, as eleven sections joined end to end. |
| Localization.Entry | src/contexts/LanguageContext.tsx:12-213 | `translations[language][key]`: a lookup in the English table for English, and nothing for Arabic and French, whose tables are empty. |
| Localization.LookupLastPair | src/contexts/LanguageContext.tsx:13-210 | A pair with no later pair of the same key is what the lookup returns. |
| Localization.LookupIgnoresAbsentSuffix | src/contexts/LanguageContext.tsx:13-210 | Sections after the last pair with a key do not change that key's lookup. |
| Localization.LookupInLastSection | src/contexts/LanguageContext.tsx:13-210 | A pair in the last section, with no later pair of its key, is what the whole table's lookup finds. |
| Localization.Translate | src/contexts/LanguageContext.tsx:225-227 | `t(key)` returns the entry when it exists and is non-empty, and otherwise the key itself. It is empty only for the empty key. |
| Localization.Dir | src/contexts/LanguageContext.tsx:229 | `dir` is right-to-left exactly for Arabic. |
| Localization.EnglishChecked | src/contexts/LanguageContext.tsx:13-210 | Every English text is non-empty, and no English key is "nonexistent_key_xyz". |
| Localization.EntriesNonEmpty | src/contexts/LanguageContext.tsx:13-227 | Every entry of every table is non-empty, so `t` returns the entry whenever one exists. |
| Localization.TranslateWithoutTable | src/contexts/LanguageContext.tsx:211-212 | For Arabic and French `t` is the identity, because their tables are empty. |
| Localization.UnknownKeyFallsBack | src/contexts/LanguageContext.tsx:226 | `t("nonexistent_key_xyz")` returns the key verbatim in every language. |
| Localization.LeadTimeInEnglish | src/contexts/LanguageContext.tsx:27 | In English `t('leadTime')` is "Lead Time". |
| Localization.ExportInEnglish | src/contexts/LanguageContext.tsx:175 | In English `t('export')` is "Export". |
| Localization.SettingsInEnglish | src/contexts/LanguageContext.tsx:193 | In English `t('settings')`, the settings page title, is "Settings". |
| Localization.LanguageProvider.constructor | src/contexts/LanguageContext.tsx:218 | The provider starts in English. |
| Localization.LanguageProvider.SetLanguage | src/contexts/LanguageContext.tsx:218 | `setLanguage` makes the given language the selected one. |
| Localization.LanguageProvider.T | src/contexts/LanguageContext.tsx:225-227 | The provider's `t`: Translate for the selected language. |
| Localization.LanguageProvider.Direction | src/contexts/LanguageContext.tsx:229 | The provider's `dir`: Dir of the selected language. |
| Localization.StartUp | src/contexts/LanguageContext.tsx:218-229 | Right after start-up `t('leadTime')` is "Lead Time" and `dir` is left-to-right. After `setLanguage('ar')`, `t('leadTime')` is "leadTime" and `dir` is right-to-left. |
| Bottlenecks.WithSeverity | src/pages/Bottlenecks.tsx:140 | The filter's result has only entries of the severity and is no longer than the list. |
| Bottlenecks.WithSeverityOccurrences | src/pages/Bottlenecks.tsx:140 | The filter keeps every entry of the severity, as often as it occurs, and drops every other entry. |
| Bottlenecks.SeverityCount | src/pages/Bottlenecks.tsx:140-157 | `.filter(b => b.severity === s).length`: the number a summary card shows. It is at most the length of the list. |
| Bottlenecks.SeverityCountsPartition | src/pages/Bottlenecks.tsx:157 | The high, medium and low counts sum to the length of the list. |
| Bottlenecks.SumImpactBounds | src/pages/Bottlenecks.tsx:174 | With every impact in [lo, hi], the sum lies between lo·n and hi·n. |
| Bottlenecks.SumImpact | src/pages/Bottlenecks.tsx:174 | `reduce((acc, b) => acc + b.impact, 0)`: the impacts summed from left to right, starting at 0. |
| Bottlenecks.AverageImpact | src/pages/Bottlenecks.tsx:174 | The average impact is defined exactly for a non-empty list, and it is the sum divided by the length, rounded half up. |
| Bottlenecks.AverageWithinImpacts | src/pages/Bottlenecks.tsx:174 | The rounded average of whole impacts lies between the smallest and the largest impact. |
| Bottlenecks.CatalogShapeCounts | src/pages/Bottlenecks.tsx:140-157 | Three entries of severities high, medium and low give a count of 1 for each severity. |
| Bottlenecks.CatalogShapeAverage | src/pages/Bottlenecks.tsx:174 | Impacts 35, 25 and 12 give an average impact of 24. |
| Bottlenecks.CatalogSummary | src/pages/Bottlenecks.tsx:24-64 | The built-in catalog shows one high, one medium and one low bottleneck and an average impact of 24, in every language. |
| Bottlenecks.Catalog | src/pages/Bottlenecks.tsx:24-64 | The three built-in bottlenecks: test (high, lead time, impact 35, three suggestions), develop (medium, WIP, 25, two) and deploy (low, efficiency, 12, one), with names, descriptions and suggestions passed through `t`. |
| Bottlenecks.SeverityColorsDistinct | src/pages/Bottlenecks.tsx:76-85 | High, medium and low get distinct badge variants, the same ones the effort badges use. |
| Bottlenecks.SeverityColor | src/pages/Bottlenecks.tsx:76-85 | getSeverityColor: high is the destructive badge variant, medium the default one and low the secondary one. |
| Settings.InitialSettings | src/pages/Settings.tsx:36-53 | The initial draft takes the provider's language and the provider's theme, or light when there is none. Notifications are on, thresholds are (200, 30, 80) and targets are (180, 30, 90, 20). |
| Settings.OnNumericInput | src/pages/Settings.tsx:192-203 | Each of the seven number inputs sets its own field to `parseInt(value) \|\| 0`. Every other number, the language, the theme and the notification flag are unchanged. |
| Settings.SettingsDetermine | src/pages/Settings.tsx:36-53 | Choices and the seven numbers determine a draft, so the handlers' results are fully specified. |
| Settings.NumericInputStores | src/pages/Settings.tsx:284-292 | A typed decimal, negative or not, is stored as its number. A cleared input stores 0. |
| Settings.OnNotificationsToggle | src/pages/Settings.tsx:166-174 | The switch changes only the flag, and the thresholds are kept. |
| Settings.OnThemeChange | src/pages/Settings.tsx:106-110 | The theme select changes only the theme. |
| Settings.OnLanguageChange | src/pages/Settings.tsx:133-137 | The language select changes only the language. |
| Settings.ToggleRoundTrip | src/pages/Settings.tsx:166-174 | Switching notifications off and back restores the draft exactly, hidden thresholds included. |
| Settings.HandleSave | src/pages/Settings.tsx:55-68 | Saving applies exactly the draft's language and theme and stores the draft unchanged. |
| Settings.SettingsVisit | src/pages/Settings.tsx:36-68 | A visit that chooses Arabic, types a lead-time target and saves. The provider ends in Arabic, setTheme gets the initial theme, and the stored draft is the initial one with those two changes. |

## Left out

- Rendering, icons, routing, charts, toasts and the dialog's `open` flag are left out. `handleSaveAll` and `handleClose` also set that flag. Closing through the dialog's own `onOpenChange` changes only that flag and does not revert edits.
- `initialStages` is read once, when the editor is constructed. A later change of the `stages` prop is not followed.
- Date.now() is the `now` parameter. Two stages added in the same millisecond get the same id. `SameMillisecondAdds` shows this; the model does not rule it out, just as the source does not.
- Optimize.Simulate: computes exactly, so the binary floating-point error of `totalImpact * 0.8` and similar products is not modelled. Near a tie that error can in principle move a rounding by one.
- The slider step of 5 on automation and parallelization is not modelled. The properties hold for every whole value in the ranges.
- The percentage bars of the comparison table (src/pages/Optimize.tsx:274, 279) divide in floating point. They are display only.
- JsSemantics.CoerceNumeric: the number a very long numeral parses to is exact here. In JavaScript it would lose precision beyond 2^53.
- Localization.Translate: a key that names an inherited property of every JavaScript object, such as "constructor", would find that property on the table's prototype. The model knows only the table's own keys.
- `document.documentElement.dir` and `.lang`, written by the provider's effect (src/contexts/LanguageContext.tsx:220-223), are I/O. `Dir` gives the value written.
- Settings.InitialSettings: next-themes may report a theme other than light or dark, such as "system". The model admits only light, dark or none.
- Settings.HandleSave: `setTheme`, the toast and `localStorage.setItem` are foreign calls. The model returns the theme handed to `setTheme` and the record that would be serialised. The JSON text itself is not modelled.
- The recommendation cards of the optimisation page are static data, shown through `getImpactColor` and `getEffortColor`. Only the colour maps are modelled.
- The stage comparison data and severity icons of the bottleneck page are display only.
- src/pages/Details.tsx is not part of this model: it generates random historical data. src/components/ExportDialog.tsx is not part of this model either: its export is a timed toast with no result.
- Header.tsx, ProcessStage.tsx, Index.tsx, ValueStreamTimeline.tsx, MetricCard.tsx and ActionPanel.tsx are view-only.
- Impacts are whole numbers, as everywhere in the source. Fractional impacts are not modelled.
