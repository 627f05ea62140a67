/** The record shapes the dashboard passes around (src/types/index.ts). Every
    string-literal union of the source becomes an enumeration; numbers that
    the source only ever fills with whole values become `int`. */
module Types {

  /** One stage of the value stream (ProcessStage). `position` is the rank the
      stage was given when it was created; deleting stages does not renumber it. */
  datatype Stage = Stage(id: string, name: string, leadTime: int, wip: int, position: int)

  /** The 'high' | 'medium' | 'low' union shared by a bottleneck's severity and
      a recommendation's impact and effort. */
  datatype Level = High | Medium | Low

  /** The 'wip' | 'leadTime' | 'efficiency' union naming what a bottleneck hurts. */
  datatype BottleneckKind = WipKind | LeadTimeKind | EfficiencyKind

  datatype Bottleneck = Bottleneck(
    id: string,
    stageId: string,
    stageName: string,
    severity: Level,
    kind: BottleneckKind,
    description: string,
    impact: int,
    suggestions: seq<string>)

  /** The interface languages 'en' | 'ar' | 'fr'. */
  datatype Language = En | Ar | Fr

  /** The colour themes 'light' | 'dark'. */
  datatype Theme = Light | Dark

  datatype Thresholds = Thresholds(leadTime: int, wip: int, efficiency: int)

  datatype Notifications = Notifications(enabled: bool, threshold: Thresholds)

  datatype Targets = Targets(leadTime: int, cycleTime: int, efficiency: int, wip: int)

  datatype UserSettings = UserSettings(
    language: Language,
    theme: Theme,
    notifications: Notifications,
    targets: Targets)
}
