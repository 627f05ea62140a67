/** The settings page (src/pages/Settings.tsx): a draft UserSettings record,
    the input handlers that replace it with an updated copy, and handleSave,
    which hands the draft's language and theme to their providers and stores
    the draft. */
module Settings {
  import opened Types
  import opened JsSemantics
  import Localization

  /** The draft the page starts from: the provider's language, the provider's
      theme or light when it has none, notifications on with thresholds
      (200, 30, 80), and targets (180, 30, 90, 20). */
  function InitialSettings(language: Language, providerTheme: Option<Theme>): (s: UserSettings)
    ensures s.language == language
    ensures providerTheme == None ==> s.theme == Light
    ensures providerTheme.Some? ==> s.theme == providerTheme.value
    ensures s.notifications == Notifications(true, Thresholds(200, 30, 80))
    ensures s.targets == Targets(180, 30, 90, 20)
  {
    UserSettings(
      language,
      if providerTheme.Some? then providerTheme.value else Light,
      Notifications(true, Thresholds(200, 30, 80)),
      Targets(180, 30, 90, 20))
  }

  // ---------------------------------------------------------------------------
  // Numeric inputs
  // ---------------------------------------------------------------------------

  /** The seven number inputs: three notification thresholds, four targets. */
  datatype NumericField =
    | LeadTimeThreshold | WipThreshold | EfficiencyThreshold
    | LeadTimeTarget | CycleTimeTarget | EfficiencyTarget | WipTarget

  /** The value an input shows. */
  function NumericValue(s: UserSettings, field: NumericField): int
  {
    match field
    case LeadTimeThreshold => s.notifications.threshold.leadTime
    case WipThreshold => s.notifications.threshold.wip
    case EfficiencyThreshold => s.notifications.threshold.efficiency
    case LeadTimeTarget => s.targets.leadTime
    case CycleTimeTarget => s.targets.cycleTime
    case EfficiencyTarget => s.targets.efficiency
    case WipTarget => s.targets.wip
  }

  /** The part of the draft the number inputs do not touch. */
  predicate SameChoices(a: UserSettings, b: UserSettings)
  {
    a.language == b.language && a.theme == b.theme && a.notifications.enabled == b.notifications.enabled
  }

  /** onChange of a number input: the nested spread copy that sets the field to
      `parseInt(e.target.value) || 0` and keeps every other field. */
  function OnNumericInput(s: UserSettings, field: NumericField, input: string): (r: UserSettings)
    ensures NumericValue(r, field) == CoerceNumeric(input)
    ensures forall other :: other != field ==> NumericValue(r, other) == NumericValue(s, other)
    ensures SameChoices(r, s)
  {
    var v := CoerceNumeric(input);
    var th := s.notifications.threshold;
    var tg := s.targets;
    match field
    case LeadTimeThreshold => s.(notifications := s.notifications.(threshold := th.(leadTime := v)))
    case WipThreshold => s.(notifications := s.notifications.(threshold := th.(wip := v)))
    case EfficiencyThreshold => s.(notifications := s.notifications.(threshold := th.(efficiency := v)))
    case LeadTimeTarget => s.(targets := tg.(leadTime := v))
    case CycleTimeTarget => s.(targets := tg.(cycleTime := v))
    case EfficiencyTarget => s.(targets := tg.(efficiency := v))
    case WipTarget => s.(targets := tg.(wip := v))
  }

  /** A draft is determined by its choices and its seven numbers, so the
      ensures of the handlers pin their results down completely. */
  lemma SettingsDetermine(a: UserSettings, b: UserSettings)
    requires SameChoices(a, b)
    requires forall f :: NumericValue(a, f) == NumericValue(b, f)
    ensures a == b
  {
    assert NumericValue(a, LeadTimeThreshold) == NumericValue(b, LeadTimeThreshold);
    assert NumericValue(a, WipThreshold) == NumericValue(b, WipThreshold);
    assert NumericValue(a, EfficiencyThreshold) == NumericValue(b, EfficiencyThreshold);
    assert NumericValue(a, LeadTimeTarget) == NumericValue(b, LeadTimeTarget);
    assert NumericValue(a, CycleTimeTarget) == NumericValue(b, CycleTimeTarget);
    assert NumericValue(a, EfficiencyTarget) == NumericValue(b, EfficiencyTarget);
    assert NumericValue(a, WipTarget) == NumericValue(b, WipTarget);
  }

  /** What a number input stores: any decimal the user types, negative ones
      included, comes back as that number; a cleared input (or any text
      without a digit) stores 0. */
  lemma NumericInputStores(s: UserSettings, field: NumericField, n: int, text: string)
    requires forall i :: 0 <= i < |text| ==> !('0' <= text[i] <= '9')
    ensures NumericValue(OnNumericInput(s, field, DecimalString(n)), field) == n
    ensures NumericValue(OnNumericInput(s, field, text), field) == 0
  {
    CoerceDecimal(n, []);
    assert DecimalString(n) + [] == DecimalString(n);
    CoerceWithoutDigits(text);
  }

  // ---------------------------------------------------------------------------
  // Choices
  // ---------------------------------------------------------------------------

  /** onCheckedChange of the notifications switch: only the flag changes; the
      thresholds are kept even while the switch hides them. */
  function OnNotificationsToggle(s: UserSettings, checked: bool): (r: UserSettings)
    ensures r.notifications.enabled == checked
    ensures r.language == s.language && r.theme == s.theme
    ensures forall f :: NumericValue(r, f) == NumericValue(s, f)
  {
    s.(notifications := s.notifications.(enabled := checked))
  }

  /** onValueChange of the theme select. */
  function OnThemeChange(s: UserSettings, theme: Theme): (r: UserSettings)
    ensures r.theme == theme
    ensures r.language == s.language && r.notifications == s.notifications && r.targets == s.targets
  {
    s.(theme := theme)
  }

  /** onValueChange of the language select. */
  function OnLanguageChange(s: UserSettings, language: Language): (r: UserSettings)
    ensures r.language == language
    ensures r.theme == s.theme && r.notifications == s.notifications && r.targets == s.targets
  {
    s.(language := language)
  }

  /** Switching notifications off and on again gives back the draft as it
      was: the hidden thresholds survive. */
  lemma ToggleRoundTrip(s: UserSettings)
    ensures OnNotificationsToggle(OnNotificationsToggle(s, false), s.notifications.enabled) == s
  {
    var r := OnNotificationsToggle(OnNotificationsToggle(s, false), s.notifications.enabled);
    SettingsDetermine(r, s);
  }

  // ---------------------------------------------------------------------------
  // Saving
  // ---------------------------------------------------------------------------

  /** handleSave: the draft's language goes to the language provider, its
      theme is what setTheme receives, and the record stored under
      'userSettings' is the draft itself. */
  method HandleSave(provider: Localization.LanguageProvider, draft: UserSettings)
    returns (appliedTheme: Theme, stored: UserSettings)
    modifies provider
    ensures provider.language == draft.language
    ensures appliedTheme == draft.theme
    ensures stored == draft
  {
    provider.SetLanguage(draft.language);
    appliedTheme := draft.theme;
    stored := draft;
  }

  /** A visit to the page: starting from the provider's state, choosing Arabic
      and typing a number as the lead-time target, then saving, switches the
      provider to Arabic and stores the edited draft with the other defaults
      intact. */
  method SettingsVisit(providerTheme: Option<Theme>, target: int)
    returns (language: Language, appliedTheme: Theme, stored: UserSettings)
    ensures language == Ar
    ensures appliedTheme == (if providerTheme.Some? then providerTheme.value else Light)
    ensures stored == UserSettings(Ar, appliedTheme, Notifications(true, Thresholds(200, 30, 80)), Targets(target, 30, 90, 20))
  {
    var provider := new Localization.LanguageProvider();
    var draft := InitialSettings(provider.language, providerTheme);
    draft := OnLanguageChange(draft, Ar);
    var edited := OnNumericInput(draft, LeadTimeTarget, DecimalString(target));
    assert edited.targets == Targets(target, 30, 90, 20) by {
      NumericInputStores(draft, LeadTimeTarget, target, "");
    }
    appliedTheme, stored := HandleSave(provider, edited);
    language := provider.language;
  }
}
