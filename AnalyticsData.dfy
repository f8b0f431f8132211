/** The telemetry records of the app: the sealed class `AnalyticsData`, its
    five data-class variants and the per-app `AppStats` counters. Timestamps
    (`ZonedDateTime` in the app) are milliseconds since the epoch. */
module Events {
  import opened Lang

  const APP_SESSION_TAG := "app_session"
  const APP_TAP_TAG := "app_tap"
  const INTERVENTION_TAG := "intervention"
  const DEVICE_STATUS_TAG := "device_status"
  const DAILY_SUMMARY_TAG := "daily_summary"

  /** The five default `eventType` values, in declaration order. */
  const EVENT_TAGS: seq<string> :=
    [APP_SESSION_TAG, APP_TAP_TAG, INTERVENTION_TAG, DEVICE_STATUS_TAG, DAILY_SUMMARY_TAG]

  datatype AppSession = AppSession(
    eventType: string,
    appName: string,
    packageName: string,
    sessionStart: int,
    sessionEnd: int)

  datatype AppTap = AppTap(
    eventType: string,
    timestamp: int,
    appName: string,
    packageName: string)

  /** Only `videoDuration` and `requiredWatchTime` are nullable. */
  datatype Intervention = Intervention(
    eventType: string,
    interventionStart: int,
    interventionEnd: int,
    appName: string,
    interventionType: string,
    videoDuration: Option<int>,
    requiredWatchTime: Option<int>,
    buttonClicked: string)

  datatype DeviceStatus = DeviceStatus(
    eventType: string,
    batteryLevel: int,
    isCharging: bool,
    connectionType: string,
    connectionStrength: string,
    appVersion: string,
    lastBatchSent: int)

  /** The six per-app counters of a daily summary. */
  datatype AppStats = AppStats(
    minutes: int,
    sessions: int,
    totalTaps: int,
    totalDelays: int,
    totalAbandonments: int,
    totalInterruptions: int)

  datatype DailySummary = DailySummary(
    eventType: string,
    date: string,
    totalScreenTime: int,
    appTotals: map<string, AppStats>)

  /** The sealed class: one constructor per data-class variant. Datatype
      equality is field-wise, like Kotlin data-class equality. */
  datatype AnalyticsData =
    | SessionEvent(session: AppSession)
    | TapEvent(tap: AppTap)
    | InterventionEvent(intervention: Intervention)
    | StatusEvent(status: DeviceStatus)
    | SummaryEvent(summary: DailySummary)

  /** The `eventType` field of whichever variant `d` is. */
  function EventType(d: AnalyticsData): string
  {
    match d
    case SessionEvent(s) => s.eventType
    case TapEvent(t) => t.eventType
    case InterventionEvent(i) => i.eventType
    case StatusEvent(st) => st.eventType
    case SummaryEvent(su) => su.eventType
  }

  /** The default value the variant of `d` declares for `eventType`. */
  function DefaultTag(d: AnalyticsData): (tag: string)
    ensures tag in EVENT_TAGS
  {
    match d
    case SessionEvent(_) => APP_SESSION_TAG
    case TapEvent(_) => APP_TAP_TAG
    case InterventionEvent(_) => INTERVENTION_TAG
    case StatusEvent(_) => DEVICE_STATUS_TAG
    case SummaryEvent(_) => DAILY_SUMMARY_TAG
  }

  /** `d` was built without overriding its `eventType` default, as every
      producer in the app does. */
  predicate HasDefaultTag(d: AnalyticsData)
  {
    EventType(d) == DefaultTag(d)
  }

  /** The five default tags are pairwise distinct, so a default tag determines
      the variant. */
  lemma DefaultTagDeterminesVariant(d1: AnalyticsData, d2: AnalyticsData)
    requires DefaultTag(d1) == DefaultTag(d2)
    ensures d1.SessionEvent? == d2.SessionEvent? && d1.TapEvent? == d2.TapEvent?
    ensures d1.InterventionEvent? == d2.InterventionEvent? && d1.StatusEvent? == d2.StatusEvent?
    ensures d1.SummaryEvent? == d2.SummaryEvent?
  {
  }

  /** Constructors with the declared default `eventType`. */
  function NewAppSession(appName: string, packageName: string, start: int, end: int): AppSession
  {
    AppSession(APP_SESSION_TAG, appName, packageName, start, end)
  }

  function NewAppTap(timestamp: int, appName: string, packageName: string): AppTap
  {
    AppTap(APP_TAP_TAG, timestamp, appName, packageName)
  }

  function NewIntervention(start: int, end: int, appName: string, interventionType: string,
                           videoDuration: Option<int>, requiredWatchTime: Option<int>,
                           buttonClicked: string): Intervention
  {
    Intervention(INTERVENTION_TAG, start, end, appName, interventionType,
                 videoDuration, requiredWatchTime, buttonClicked)
  }
}
