/** The interface language (src/contexts/LanguageContext.tsx): the
    translation table, the lookup `t` that falls back to the key, the text
    direction `dir`, and the provider that holds the selected language. */
module Localization {
  import opened Types
  import opened JsSemantics

  /** A table of translations as the object literal writes it: (key, text)
      pairs in source order. */
  type Table = seq<(string, string)>

  /** App General (lines 15-25 of the table). */
  const AppGeneralSection: Table := [
    ("appTitle", "Value Stream Mapping"),
    ("lightMode", "Light Mode"),
    ("darkMode", "Dark Mode"),
    ("language", "Language"),
    ("english", "English"),
    ("arabic", "\U{0627}\U{0644}\U{0639}\U{0631}\U{0628}\U{064A}\U{0629}"),
    ("french", "Fran\U{00E7}ais"),
    ("dashboard", "Dashboard"),
    ("analytics", "Analytics"),
    ("stages", "Stages"),
    ("stage", "Stage")
  ]

  /** Metrics (lines 27-35 of the table). */
  const MetricsSection: Table := [
    ("leadTime", "Lead Time"),
    ("wipCount", "WIP Count"),
    ("wip", "WIP"),
    ("cycleTime", "Cycle Time"),
    ("processEfficiency", "Process Efficiency"),
    ("efficiency", "Efficiency"),
    ("days", "days"),
    ("items", "items"),
    ("hours", "hours")
  ]

  /** Actions (lines 37-40 of the table). */
  const ActionsSection: Table := [
    ("viewDetails", "View Details"),
    ("optimizeProcess", "Optimize Process"),
    ("analyzeBottlenecks", "Analyze Bottlenecks"),
    ("stageDescription", "Lean process stage with continuous improvement focus")
  ]

  /** Process Stages (lines 42-47 of the table). */
  const ProcessStagesSection: Table := [
    ("improve", "Improve"),
    ("design", "Design"),
    ("develop", "Develop"),
    ("test", "Test"),
    ("deploy", "Deploy"),
    ("monitor", "Monitor")
  ]

  /** Navigation (line 49 of the table). */
  const NavigationSection: Table := [
    ("backToDashboard", "Back to Dashboard")
  ]

  /** Details Page (lines 51-89 of the table). */
  const DetailsPageSection: Table := [
    ("metricsDetails", "Metrics Details"),
    ("metricsDetailsSubtitle", "In-depth analysis of your process metrics and trends"),
    ("target", "Target"),
    ("overview", "Overview"),
    ("allMetricsTrend", "All Metrics Trend"),
    ("efficiencyTrend", "Efficiency Trend"),
    ("leadTimeTrend", "Lead Time Trend"),
    ("wipTrend", "WIP Trend"),
    ("keyInsights", "Key Insights"),
    ("improvingEfficiency", "Improving Efficiency"),
    ("efficiencyImprovedBy", "Efficiency improved by"),
    ("lastMonth", "last month"),
    ("stableLeadTime", "Stable Lead Time"),
    ("leadTimeStable", "Lead time stable within"),
    ("wipNeedsAttention", "WIP Needs Attention"),
    ("wipAboveTarget", "WIP above target by"),
    ("average", "Average"),
    ("minimum", "Minimum"),
    ("maximum", "Maximum"),
    ("last30Days", "Last 30 days"),
    ("bestPerformance", "Best performance"),
    ("needsImprovement", "Needs improvement"),
    ("wipAnalysis", "WIP Analysis"),
    ("wipAnalysisDescription", "Work In Progress analysis shows how many items are currently being worked on across all process stages."),
    ("currentWIP", "Current WIP"),
    ("targetWIP", "Target WIP"),
    ("difference", "Difference"),
    ("efficiencyBreakdown", "Efficiency Breakdown"),
    ("valueAddingTime", "Value-Adding Time"),
    ("waitingTime", "Waiting Time"),
    ("wasteTime", "Waste Time"),
    ("recommendations", "Recommendations"),
    ("recommendation1", "Focus on reducing waiting time between stages"),
    ("recommendation2", "Implement parallel processing where possible"),
    ("recommendation3", "Automate repetitive tasks in the Test stage"),
    ("leadTimeDescription", "Total time from start to finish"),
    ("wipDescription", "Number of items currently in progress"),
    ("cycleTimeDescription", "Average time per item"),
    ("efficiencyDescription", "Percentage of value-adding time")
  ]

  /** Bottlenecks Page (lines 91-126 of the table). */
  const BottlenecksPageSection: Table := [
    ("bottleneckAnalysis", "Bottleneck Analysis"),
    ("bottleneckAnalysisSubtitle", "Identify and resolve process bottlenecks to improve flow"),
    ("highSeverity", "High Severity"),
    ("mediumSeverity", "Medium Severity"),
    ("lowSeverity", "Low Severity"),
    ("needsImmediateAttention", "Needs immediate attention"),
    ("planForImprovement", "Plan for improvement"),
    ("averageImpact", "Average Impact"),
    ("onOverallProcess", "on overall process"),
    ("leadTimeByStage", "Lead Time by Stage"),
    ("wipByStage", "WIP by Stage"),
    ("identifiedBottlenecks", "Identified Bottlenecks"),
    ("impact", "Impact"),
    ("suggestions", "Suggestions"),
    ("createActionPlan", "Create Action Plan"),
    ("overallRecommendations", "Overall Recommendations"),
    ("optimizeLeadTime", "Optimize Lead Time"),
    ("optimizeLeadTimeDesc", "Focus on the Test stage which shows the highest lead time"),
    ("balanceWIP", "Balance WIP"),
    ("balanceWIPDesc", "Distribute work more evenly across development stages"),
    ("increaseEfficiency", "Increase Efficiency"),
    ("increaseEfficiencyDesc", "Reduce waste and waiting time in all stages"),
    ("automateProcesses", "Automate Processes"),
    ("automateProcessesDesc", "Implement automation for repetitive manual tasks"),
    ("high", "High"),
    ("medium", "Medium"),
    ("low", "Low"),
    ("bottleneck1Description", "Test stage showing significantly higher lead time due to manual testing processes and limited resources"),
    ("bottleneck1Suggestion1", "Implement automated testing frameworks"),
    ("bottleneck1Suggestion2", "Increase testing resources during peak periods"),
    ("bottleneck1Suggestion3", "Parallelize test execution where possible"),
    ("bottleneck2Description", "Development stage has accumulated WIP items causing delays and context switching"),
    ("bottleneck2Suggestion1", "Implement WIP limits per developer"),
    ("bottleneck2Suggestion2", "Focus on completing tasks before starting new ones"),
    ("bottleneck3Description", "Deployment process has some manual steps that could be automated"),
    ("bottleneck3Suggestion1", "Automate deployment pipeline completely")
  ]

  /** Optimize Page (lines 128-163 of the table). */
  const OptimizePageSection: Table := [
    ("processOptimization", "Process Optimization"),
    ("processOptimizationSubtitle", "Simulate and implement process improvements"),
    ("optimizationSimulator", "Optimization Simulator"),
    ("teamSize", "Team Size"),
    ("adjustTeamSize", "Adjust team size to see impact on metrics"),
    ("automationLevel", "Automation Level"),
    ("automationLevelDesc", "Percentage of automated tasks"),
    ("parallelization", "Parallelization"),
    ("parallelizationDesc", "Percentage of parallel task execution"),
    ("projectedResults", "Projected Results"),
    ("potentialImprovement", "Potential Improvement"),
    ("potentialImprovementDesc", "These projections show the potential impact of your optimization choices"),
    ("optimizationRecommendations", "Optimization Recommendations"),
    ("estimatedImprovement", "Estimated Improvement"),
    ("implementRecommendation", "Implement Recommendation"),
    ("optimizationRec1Title", "Implement CI/CD Automation"),
    ("optimizationRec1Desc", "Automate the entire deployment pipeline to reduce manual intervention and errors"),
    ("optimizationRec2Title", "Adopt Kanban WIP Limits"),
    ("optimizationRec2Desc", "Set strict WIP limits to improve flow and reduce context switching"),
    ("optimizationRec3Title", "Scale Testing Infrastructure"),
    ("optimizationRec3Desc", "Add more testing resources and implement parallel test execution"),
    ("optimizationRec4Title", "Continuous Improvement Practices"),
    ("optimizationRec4Desc", "Establish regular retrospectives and implement kaizen methodology"),
    ("automation", "Automation"),
    ("workflow", "Workflow"),
    ("resource", "Resource"),
    ("process", "Process"),
    ("effort", "Effort"),
    ("quickWins", "Quick Wins"),
    ("quickWinsDesc", "Low-effort, high-impact improvements you can implement immediately"),
    ("quickWin1", "Daily Standups"),
    ("quickWin1Desc", "Implement quick daily synchronization meetings"),
    ("quickWin2", "Code Reviews"),
    ("quickWin2Desc", "Establish mandatory peer code reviews"),
    ("quickWin3", "Definition of Done"),
    ("quickWin3Desc", "Create clear completion criteria for all tasks")
  ]

  /** Process Editor (lines 165-173 of the table). */
  const ProcessEditorSection: Table := [
    ("editProcessStages", "Edit Process Stages"),
    ("editProcessStagesDesc", "Add, edit, or remove process stages to customize your value stream"),
    ("stageName", "Stage Name"),
    ("addNewStage", "Add New Stage"),
    ("enterStageName", "Enter stage name"),
    ("addStage", "Add Stage"),
    ("save", "Save"),
    ("cancel", "Cancel"),
    ("saveChanges", "Save Changes")
  ]

  /** Export (lines 175-191 of the table). */
  const ExportSection: Table := [
    ("export", "Export"),
    ("exportData", "Export Data"),
    ("exportDataDesc", "Export your metrics and analysis in various formats"),
    ("selectFormat", "Select Format"),
    ("pdfDesc", "Complete report with charts and metrics"),
    ("csvDesc", "Spreadsheet data for external analysis"),
    ("jsonDesc", "Raw data in JSON format"),
    ("includeInExport", "Include in Export"),
    ("metricsData", "Metrics Data"),
    ("processStages", "Process Stages"),
    ("charts", "Charts"),
    ("exportStarted", "Export Started"),
    ("exporting", "Exporting"),
    ("file", "file"),
    ("exportSuccess", "Export Successful"),
    ("yourFile", "Your"),
    ("hasBeenExported", "file has been exported successfully")
  ]

  /** Settings (lines 193-209 of the table). */
  const SettingsSection: Table := [
    ("settings", "Settings"),
    ("settingsSubtitle", "Configure your preferences and targets"),
    ("appearance", "Appearance"),
    ("theme", "Theme"),
    ("selectLanguage", "Select Language"),
    ("notifications", "Notifications"),
    ("enableNotifications", "Enable Notifications"),
    ("enableNotificationsDesc", "Receive alerts when metrics exceed thresholds"),
    ("alertThresholds", "Alert Thresholds"),
    ("leadTimeThresholdDesc", "Alert when lead time exceeds this value"),
    ("wipThresholdDesc", "Alert when WIP count exceeds this value"),
    ("efficiencyThresholdDesc", "Alert when efficiency falls below this value"),
    ("targets", "Targets"),
    ("targetsDesc", "Set your target metrics for optimal process performance"),
    ("saveSettings", "Save Settings"),
    ("settingsSaved", "Settings Saved"),
    ("settingsSavedDesc", "Your preferences have been saved successfully")
  ]

  /** The English table (`translations.en`): the sections above, in order. */
  const English: Table :=
    AppGeneralSection
    + MetricsSection
    + ActionsSection
    + ProcessStagesSection
    + NavigationSection
    + DetailsPageSection
    + BottlenecksPageSection
    + OptimizePageSection
    + ProcessEditorSection
    + ExportSection
    + SettingsSection

  /** No pair of the table has this key. */
  predicate KeyAbsent(table: Table, key: string)
  {
    forall i :: 0 <= i < |table| ==> table[i].0 != key
  }

  /** Every text of the table is non-empty. */
  predicate TextsNonEmpty(table: Table)
  {
    forall i :: 0 <= i < |table| ==> table[i].1 != ""
  }

  /** The value an object literal gives a property: the text of the LAST pair
      with that key, since a later property overrides an earlier one. */
  function Lookup(table: Table, key: string): (r: Option<string>)
    ensures r == None <==> KeyAbsent(table, key)
    ensures r.Some? ==> exists i :: 0 <= i < |table| && table[i] == (key, r.value) && KeyAbsent(table[i + 1..], key)
  {
    if table == [] then None
    else if table[|table| - 1].0 == key then Some(table[|table| - 1].1)
    else
      var r := Lookup(table[..|table| - 1], key);
      assert r.Some? ==> exists i :: 0 <= i < |table| - 1 && table[i] == (key, r.value) && KeyAbsent(table[i + 1..], key) by {
        if r.Some? {
          var i :| 0 <= i < |table| - 1 && table[..|table| - 1][i] == (key, r.value) && KeyAbsent(table[..|table| - 1][i + 1..], key);
          assert table[i + 1..] == table[..|table| - 1][i + 1..] + [table[|table| - 1]];
        }
      }
      r
  }

  /** A pair followed by no other pair with its key is the one the lookup
      finds. */
  lemma {:induction false} LookupLastPair(table: Table, i: nat)
    requires i < |table| && KeyAbsent(table[i + 1..], table[i].0)
    ensures Lookup(table, table[i].0) == Some(table[i].1)
  {
    if i < |table| - 1 {
      assert table[|table| - 1] == table[i + 1..][|table| - i - 2];
      assert table[..|table| - 1][i + 1..] == table[i + 1..][..|table| - i - 2];
      LookupLastPair(table[..|table| - 1], i);
    }
  }

  /** Pairs appended after the last one with a key do not change its lookup. */
  lemma {:induction false} LookupIgnoresAbsentSuffix(a: Table, b: Table, key: string)
    requires KeyAbsent(b, key)
    ensures Lookup(a + b, key) == Lookup(a, key)
  {
    if b != [] {
      assert (a + b)[..|a + b| - 1] == a + b[..|b| - 1];
      LookupIgnoresAbsentSuffix(a, b[..|b| - 1], key);
    } else {
      assert a + b == a;
    }
  }

  /** A pair of the last section, followed in it by no other pair with its
      key, is what the lookup of the whole table finds. */
  lemma LookupInLastSection(before: Table, section: Table, i: nat)
    requires i < |section| && KeyAbsent(section[i + 1..], section[i].0)
    ensures Lookup(before + section, section[i].0) == Some(section[i].1)
  {
    var t := before + section;
    assert t[|before| + i] == section[i];
    assert t[|before| + i + 1..] == section[i + 1..];
    LookupLastPair(t, |before| + i);
  }

  /** Non-empty texts and a missing key carry over from two tables to their
      concatenation. */
  lemma TableFactsConcat(a: Table, b: Table, key: string)
    ensures TextsNonEmpty(a) && TextsNonEmpty(b) ==> TextsNonEmpty(a + b)
    ensures KeyAbsent(a, key) && KeyAbsent(b, key) ==> KeyAbsent(a + b, key)
  {
    if TextsNonEmpty(a) && TextsNonEmpty(b) {
      forall i | 0 <= i < |a + b| ensures (a + b)[i].1 != "" {
        if i >= |a| { assert (a + b)[i] == b[i - |a|]; }
      }
    }
    if KeyAbsent(a, key) && KeyAbsent(b, key) {
      forall i | 0 <= i < |a + b| ensures (a + b)[i].0 != key {
        if i >= |a| { assert (a + b)[i] == b[i - |a|]; }
      }
    }
  }

  /** `translations[language][key]`; None for a key the table lacks. The
      Arabic and French tables are empty. */
  function Entry(language: Language, key: string): Option<string>
  {
    match language
    case En => Lookup(English, key)
    case Ar => None
    case Fr => None
  }

  /** `t(key)`: `translations[language][key] || key`. A present, non-empty
      entry is returned; a missing or empty one falls back to the key itself. */
  function Translate(language: Language, key: string): (r: string)
    ensures Entry(language, key).Some? && Entry(language, key).value != "" ==> r == Entry(language, key).value
    ensures Entry(language, key) == None || Entry(language, key).value == "" ==> r == key
    ensures r == "" ==> key == ""
  {
    var entry := Entry(language, key);
    if entry.Some? && entry.value != "" then entry.value else key
  }

  /** The text direction of `dir` (and of the document): right to left for
      Arabic only. */
  datatype Direction = Ltr | Rtl

  function Dir(language: Language): (d: Direction)
    ensures d == Rtl <==> language == Ar
  {
    if language == Ar then Rtl else Ltr
  }

  /** The key used below as an example of one that no table has. */
  const UnknownKey := "nonexistent_key_xyz"

  lemma AppGeneralSectionChecked()
    ensures TextsNonEmpty(AppGeneralSection) && KeyAbsent(AppGeneralSection, UnknownKey)
    ensures KeyAbsent(AppGeneralSection, "leadTime")
  {
  }

  lemma MetricsSectionChecked()
    ensures TextsNonEmpty(MetricsSection) && KeyAbsent(MetricsSection, UnknownKey)
    ensures MetricsSection[0] == ("leadTime", "Lead Time") && KeyAbsent(MetricsSection[1..], "leadTime")
  {
  }

  lemma ActionsSectionChecked()
    ensures TextsNonEmpty(ActionsSection) && KeyAbsent(ActionsSection, UnknownKey)
    ensures KeyAbsent(ActionsSection, "leadTime")
  {
  }

  lemma ProcessStagesSectionChecked()
    ensures TextsNonEmpty(ProcessStagesSection) && KeyAbsent(ProcessStagesSection, UnknownKey)
    ensures KeyAbsent(ProcessStagesSection, "leadTime")
  {
  }

  lemma NavigationSectionChecked()
    ensures TextsNonEmpty(NavigationSection) && KeyAbsent(NavigationSection, UnknownKey)
    ensures KeyAbsent(NavigationSection, "leadTime")
  {
  }

  lemma DetailsPageSectionChecked()
    ensures TextsNonEmpty(DetailsPageSection) && KeyAbsent(DetailsPageSection, UnknownKey)
    ensures KeyAbsent(DetailsPageSection, "leadTime")
  {
  }

  lemma BottlenecksPageSectionChecked()
    ensures TextsNonEmpty(BottlenecksPageSection) && KeyAbsent(BottlenecksPageSection, UnknownKey)
    ensures KeyAbsent(BottlenecksPageSection, "leadTime")
  {
  }

  lemma OptimizePageSectionChecked()
    ensures TextsNonEmpty(OptimizePageSection) && KeyAbsent(OptimizePageSection, UnknownKey)
    ensures KeyAbsent(OptimizePageSection, "leadTime")
  {
  }

  lemma ProcessEditorSectionChecked()
    ensures TextsNonEmpty(ProcessEditorSection) && KeyAbsent(ProcessEditorSection, UnknownKey)
    ensures KeyAbsent(ProcessEditorSection, "leadTime")
  {
  }

  lemma ExportSectionChecked()
    ensures TextsNonEmpty(ExportSection) && KeyAbsent(ExportSection, UnknownKey)
    ensures KeyAbsent(ExportSection, "leadTime")
  {
  }

  lemma SettingsSectionChecked()
    ensures TextsNonEmpty(SettingsSection) && KeyAbsent(SettingsSection, UnknownKey)
    ensures KeyAbsent(SettingsSection, "leadTime")
  {
  }

  /** The facts checked section by section, for the whole English table. */
  lemma EnglishChecked()
    ensures TextsNonEmpty(English) && KeyAbsent(English, UnknownKey)
  {
    AppGeneralSectionChecked();
    MetricsSectionChecked();
    ActionsSectionChecked();
    ProcessStagesSectionChecked();
    NavigationSectionChecked();
    DetailsPageSectionChecked();
    BottlenecksPageSectionChecked();
    OptimizePageSectionChecked();
    ProcessEditorSectionChecked();
    ExportSectionChecked();
    SettingsSectionChecked();
    var t := AppGeneralSection;
    TableFactsConcat(t, MetricsSection, UnknownKey);
    t := t + MetricsSection;
    TableFactsConcat(t, ActionsSection, UnknownKey);
    t := t + ActionsSection;
    TableFactsConcat(t, ProcessStagesSection, UnknownKey);
    t := t + ProcessStagesSection;
    TableFactsConcat(t, NavigationSection, UnknownKey);
    t := t + NavigationSection;
    TableFactsConcat(t, DetailsPageSection, UnknownKey);
    t := t + DetailsPageSection;
    TableFactsConcat(t, BottlenecksPageSection, UnknownKey);
    t := t + BottlenecksPageSection;
    TableFactsConcat(t, OptimizePageSection, UnknownKey);
    t := t + OptimizePageSection;
    TableFactsConcat(t, ProcessEditorSection, UnknownKey);
    t := t + ProcessEditorSection;
    TableFactsConcat(t, ExportSection, UnknownKey);
    t := t + ExportSection;
    TableFactsConcat(t, SettingsSection, UnknownKey);
    t := t + SettingsSection;
    assert t == English;
  }

  /** Every entry of every table is non-empty, so `t` falls back to the key
      only for keys the table lacks. */
  lemma EntriesNonEmpty(language: Language, key: string)
    ensures Entry(language, key).Some? ==> Entry(language, key).value != ""
    ensures Translate(language, key) == if Entry(language, key).Some? then Entry(language, key).value else key
  {
    EnglishChecked();
  }

  /** For Arabic and French `t` is the identity, since their tables are empty. */
  lemma TranslateWithoutTable(language: Language, key: string)
    requires language != En
    ensures Translate(language, key) == key
  {
  }

  /** A key that no table has, such as "nonexistent_key_xyz", comes back
      verbatim in every language. */
  lemma UnknownKeyFallsBack(language: Language)
    ensures Entry(language, UnknownKey) == None
    ensures Translate(language, UnknownKey) == UnknownKey
  {
    EnglishChecked();
  }

  /** In English, `t('leadTime')` reads "Lead Time": its one pair is in the
      Metrics section and no later pair repeats the key. */
  lemma LeadTimeInEnglish()
    ensures Translate(En, "leadTime") == "Lead Time"
  {
    MetricsSectionChecked();
    ActionsSectionChecked();
    ProcessStagesSectionChecked();
    NavigationSectionChecked();
    DetailsPageSectionChecked();
    BottlenecksPageSectionChecked();
    OptimizePageSectionChecked();
    ProcessEditorSectionChecked();
    ExportSectionChecked();
    SettingsSectionChecked();
    var head := AppGeneralSection + MetricsSection;
    var at := |AppGeneralSection|;
    assert head[at] == MetricsSection[0];
    assert head[at + 1..] == MetricsSection[1..];
    LookupLastPair(head, at);
    var t := head;
    LookupIgnoresAbsentSuffix(t, ActionsSection, "leadTime");
    t := t + ActionsSection;
    LookupIgnoresAbsentSuffix(t, ProcessStagesSection, "leadTime");
    t := t + ProcessStagesSection;
    LookupIgnoresAbsentSuffix(t, NavigationSection, "leadTime");
    t := t + NavigationSection;
    LookupIgnoresAbsentSuffix(t, DetailsPageSection, "leadTime");
    t := t + DetailsPageSection;
    LookupIgnoresAbsentSuffix(t, BottlenecksPageSection, "leadTime");
    t := t + BottlenecksPageSection;
    LookupIgnoresAbsentSuffix(t, OptimizePageSection, "leadTime");
    t := t + OptimizePageSection;
    LookupIgnoresAbsentSuffix(t, ProcessEditorSection, "leadTime");
    t := t + ProcessEditorSection;
    LookupIgnoresAbsentSuffix(t, ExportSection, "leadTime");
    t := t + ExportSection;
    LookupIgnoresAbsentSuffix(t, SettingsSection, "leadTime");
    t := t + SettingsSection;
    assert t == English;
  }

  /** No pair after the first Export entry repeats its key. */
  lemma ExportKeyUnique()
    ensures KeyAbsent(ExportSection[1..], "export")
    ensures KeyAbsent(SettingsSection, "export")
  {
  }

  /** In English `t('export')` reads "Export" (line 175). */
  lemma ExportInEnglish()
    ensures Translate(En, "export") == "Export"
  {
    ExportKeyUnique();
    assert ExportSection[0] == ("export", "Export");
    var before := AppGeneralSection;
    before := before + MetricsSection;
    before := before + ActionsSection;
    before := before + ProcessStagesSection;
    before := before + NavigationSection;
    before := before + DetailsPageSection;
    before := before + BottlenecksPageSection;
    before := before + OptimizePageSection;
    before := before + ProcessEditorSection;
    LookupInLastSection(before, ExportSection, 0);
    var t := before + ExportSection;
    LookupIgnoresAbsentSuffix(t, SettingsSection, "export");
    t := t + SettingsSection;
    assert t == English;
  }

  /** No pair after the first Settings entry repeats its key. */
  lemma SettingsKeyUnique()
    ensures KeyAbsent(SettingsSection[1..], "settings")
  {
  }

  /** In English the settings page is titled "Settings" (line 193). */
  lemma SettingsInEnglish()
    ensures Translate(En, "settings") == "Settings"
  {
    SettingsKeyUnique();
    assert SettingsSection[0] == ("settings", "Settings");
    var before := AppGeneralSection;
    before := before + MetricsSection;
    before := before + ActionsSection;
    before := before + ProcessStagesSection;
    before := before + NavigationSection;
    before := before + DetailsPageSection;
    before := before + BottlenecksPageSection;
    before := before + OptimizePageSection;
    before := before + ProcessEditorSection;
    before := before + ExportSection;
    LookupInLastSection(before, SettingsSection, 0);
    var t := before + SettingsSection;
    assert t == English;
  }

  /** LanguageProvider: the one piece of state, the selected language. */
  class LanguageProvider {
    var language: Language

    /** The provider starts in English. */
    constructor ()
      ensures language == En
    {
      language := En;
    }

    /** setLanguage. */
    method SetLanguage(language': Language)
      modifies this
      ensures language == language'
    {
      language := language';
    }

    /** `t` bound to the selected language. */
    function T(key: string): string
      reads this
    {
      Translate(language, key)
    }

    /** `dir` for the selected language. */
    function Direction(): Direction
      reads this
    {
      Dir(language)
    }
  }

  /** Right after start-up, `t('leadTime')` reads "Lead Time" and the text runs
      left to right; after switching to Arabic, keys come back verbatim and the
      text runs right to left. */
  method StartUp() returns (leadTimeLabel: string, direction: Direction, arabicLabel: string, arabicDirection: Direction)
    ensures leadTimeLabel == "Lead Time" && direction == Ltr
    ensures arabicLabel == "leadTime" && arabicDirection == Rtl
  {
    var provider := new LanguageProvider();
    LeadTimeInEnglish();
    leadTimeLabel, direction := provider.T("leadTime"), provider.Direction();
    provider.SetLanguage(Ar);
    arabicLabel, arabicDirection := provider.T("leadTime"), provider.Direction();
  }
}
