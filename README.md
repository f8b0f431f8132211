# onesecclone — a Dafny model

onesecclone is an Android app with a small Node.js backend for a study of
social-media use. A foreground service polls which app is in the foreground.
It records taps on Instagram, Facebook and YouTube and the sessions that
follow a tap. On Instagram it raises a video overlay that asks the user to
wait before going on. The app keeps these events in an in-memory analytics
store and sends them to the server as JSON, one at a time or in batches.
Whatever cannot be sent goes into an offline queue that is replayed later.
The server checks each request and inserts every event into the table that
matches its `eventType`.

The model has one module per source component:

| module | file | models |
|---|---|---|
| `Lang` | Lang.dfy | Kotlin's truncating `/` and `%`, `Long.toInt()`, decimal text |
| `Json` | Json.dfy | JSON values as they travel between the app and the server, and JavaScript's falsy test |
| `Events` | AnalyticsData.dfy | the five event records, their `eventType` tags and `AppStats` |
| `Analytics` | AnalyticsService.kt → AnalyticsService.dfy | the in-memory store, its recorders and the daily summary |
| `Monitor` | MainService.kt → MainService.dfy | the monitoring loop: foreground detection, taps, sessions and the overlay gate |
| `Platform` | Platform.dfy | the usage-statistics rows the platform returns, and the filter, max and find over them |
| `Overlay` | OverlayService.kt → Overlay.dfy | the overlay's countdown, its four exit paths, the intervention it records, and the shared skip clock |
| `UsageTracking` | UsageSessionTracker.kt → UsageSessionTracker.dfy | importing usage statistics as sessions past a watermark |
| `Sync` | DataSyncService.kt → DataSyncService.dfy | single and batch sends, the offline queue and its replay |
| `Config` | AppConfig.kt → AppConfig.dfy | the build-time server URL rule and the environments |
| `Network` | NetworkClient.kt → NetworkClient.dfy | the JSON serializer (with a decoder that inverts it), the stored base URL and environment, and the device id |
| `Sorting` | Sorting.dfy | a stable descending sort by key, standing in for `sortedByDescending` / `sortByDescending` |
| `ScreenTimeViewModel` | ScreenTimeViewModel.dfy | the filter, group, sum and sort pipeline of the screen-time list |
| `ScreenTimeFragment` | ScreenTimeFragment.dfy | pairing usage events into sessions, and the duration text |
| `StudyInfo` | StudyInfoFragment.dfy | the study range pickers, the send rule, filtering and the preview |
| `ServerSettings` | ServerSettingsFragment.dfy | the URL check, saving a custom URL, and choosing an environment |
| `Server` | server/server.js → Server.dfy | the health, single-event and batch endpoints, and the per-table inserts |

The model is built as follows.

- **Time and the outside world.** Time is an integer number of
  milliseconds. Whatever the code reads from the outside world is a
  parameter of the operation that reads it:
  - the clock;
  - the usage-statistics and usage-event queries;
  - network availability and the outcome of each request;
  - the package-label lookup;
  - whether the overlay or the sync service is running;
  - whether a database insert fails.
- **State that changes in place.** Each source object whose fields change
  in place is a class. Examples are `MainService`, `AnalyticsService`,
  `DataSyncService`, `NetworkClient`, `OverlayService`,
  `UsageSessionTracker`, the study screen and the server's database. Each
  method's `ensures` gives the whole new state, or ties it to a pure
  function of the old state. The lemmas are proved about those functions.
- **Calls with no definition in these sources.** The monitoring loop calls
  static recorders such as `AnalyticsService.recordAppSessionStatic`. These
  are not defined in the sources, so the model keeps each call as an
  emitted record (`Monitor.Emission`, `Overlay.InterventionCall`) rather
  than guessing what they do.
- **The wire format.** The JSON the serializer builds is the input the
  server model reads. So one model covers both ends of the trip: an app
  event, serialized and posted in a batch, lands as the row the server
  builds from its fields (`Server.AppBatchIsStored`).

Some behaviours of the code that the model keeps as written:

- `DataSyncService` sends each item or batch once. A failed send only
  queues the data; the queue is replayed on a later sync cycle, without
  chunking, backoff or a battery check.
- A session starts only when the current app differs from the last
  detected app and a tap was recorded on an earlier tick. A user who opens
  Instagram and stays there never gets a session
  (`Monitor.OpenAndStayRecordsNoSession`). Leaving and returning within the
  tap validity window does start one (`Monitor.ReturnWithinWindowRecordsSession`).
- Event timestamps are modelled as a dedicated JSON value that holds the
  instant, standing for the ISO-8601 text the server expects. This follows
  the intended wire format, not the code as written: the serializers in
  NetworkClient.kt pass a `ZonedDateTime` to Gson's `addProperty`, which
  has no overload for it, so the code does not fix an encoding.

## Model

| member | source | states |
|---|---|---|
| Events.DefaultTag | app/src/main/java/com/example/onesecclone/analytics/AnalyticsData.kt:6-48 | each variant's default `eventType` is one of the five tags the server dispatches on |
| Events.DefaultTagDeterminesVariant | app/src/main/java/com/example/onesecclone/analytics/AnalyticsData.kt:8-44 | the five default tags are distinct: two records with equal default tags are the same variant |
| Lang.ToInt32 | app/src/main/java/com/example/onesecclone/OverlayService.kt:218 | `Long.toInt()` keeps the value when it fits in 32 bits and otherwise wraps it modulo 2^32 into the signed range |
| Config.EnvironmentsEnumerated | app/src/main/java/com/example/onesecclone/config/AppConfig.kt:55-60 | the environments are listed once each in declaration order, and CUSTOM is the only one whose URL is empty |
| Config.NamedDefaultsCoincide | app/src/main/java/com/example/onesecclone/config/AppConfig.kt:13-15 | the production, staging and local defaults are currently the same address, and it differs from CUSTOM's |
| Config.ServerUrlPriority | app/src/main/java/com/example/onesecclone/config/AppConfig.kt:24-37 | a non-empty build-config SERVER_URL wins. Otherwise DEBUG gives the local default, then build type "staging" gives the staging default, else the production default. The result is never empty |
| Network.Serialize | app/src/main/java/com/example/onesecclone/network/NetworkClient.kt:66-112 | the JSON is an object whose "eventType" is the record's own tag |
| Network.SerializedKeys | app/src/main/java/com/example/onesecclone/network/NetworkClient.kt:70-109 | each variant emits "eventType" plus exactly its own field names |
| Network.InterventionKeys | app/src/main/java/com/example/onesecclone/network/NetworkClient.kt:84-93 | an intervention always has its five required keys, and has "videoDuration" / "requiredWatchTime" exactly when they are non-null |
| Network.StatsRoundTrip | app/src/main/java/com/example/onesecclone/network/NetworkClient.kt:103-108 | the six counters of an `AppStats` are read back unchanged from its JSON |
| Network.TotalsRoundTrip | app/src/main/java/com/example/onesecclone/network/NetworkClient.kt:103-108 | the per-app totals map is read back unchanged from its JSON |
| Network.SerializeRoundTrip | app/src/main/java/com/example/onesecclone/network/NetworkClient.kt:66-112 | every field is emitted unchanged: decoding the JSON of a record with its default tag gives the record back |
| Network.SessionRoundTrip | app/src/main/java/com/example/onesecclone/network/NetworkClient.kt:71-77 | a session's JSON decodes to the same session |
| Network.TapRoundTrip | app/src/main/java/com/example/onesecclone/network/NetworkClient.kt:78-83 | a tap's JSON decodes to the same tap |
| Network.InterventionRoundTrip | app/src/main/java/com/example/onesecclone/network/NetworkClient.kt:84-93 | an intervention's JSON, with or without its optional fields, decodes to the same intervention |
| Network.StatusRoundTrip | app/src/main/java/com/example/onesecclone/network/NetworkClient.kt:94-102 | a device status's JSON decodes to the same status |
| Network.SummaryRoundTrip | app/src/main/java/com/example/onesecclone/network/NetworkClient.kt:103-108 | a daily summary's JSON decodes to the same summary |
| Network.BaseUrlChoice | app/src/main/java/com/example/onesecclone/network/NetworkClient.kt:127-136 | the stored URL is used if and only if it is present, non-empty and not the legacy address. Otherwise the build-config URL is used. The result is never empty |
| Network.EnvironmentOf | app/src/main/java/com/example/onesecclone/network/NetworkClient.kt:156-160 | a named environment is reported only when its URL equals the current base URL, else CUSTOM |
| Network.EnvironmentReadBack | app/src/main/java/com/example/onesecclone/network/NetworkClient.kt:156-160 | all named URLs are equal, so any named environment reads back as PRODUCTION. Only PRODUCTION and CUSTOM read back as themselves |
| Network.NetworkClient.constructor | app/src/main/java/com/example/onesecclone/network/NetworkClient.kt:22-40 | the client starts from the stored preferences and the build configuration |
| Network.NetworkClient.SetBaseUrl | app/src/main/java/com/example/onesecclone/network/NetworkClient.kt:138-142 | stores the URL and nothing else. A later base-URL read returns it unless it is empty or the legacy address |
| Network.NetworkClient.SetServerEnvironment | app/src/main/java/com/example/onesecclone/network/NetworkClient.kt:144-154 | stores the environment name. A named environment also stores its URL; CUSTOM leaves the stored URL untouched |
| Network.NetworkClient.GetDeviceId | app/src/main/java/com/example/onesecclone/network/NetworkClient.kt:168-179 | a stored id is returned unchanged. Otherwise the Android id (or "device_" + time) is stored and returned |
| Sync.SuccessesAndFailuresPartition | app/src/main/java/com/example/onesecclone/network/DataSyncService.kt:178-193 | each queued item is either sent or kept: successes and failures together are the queue, as a multiset |
| Sync.RemoveFirst | app/src/main/java/com/example/onesecclone/network/DataSyncService.kt:195 | `remove` drops one occurrence of a present item, and leaves the queue alone otherwise |
| Sync.RemoveEachSubtracts | app/src/main/java/com/example/onesecclone/network/DataSyncService.kt:195 | removing a sub-multiset one item at a time subtracts exactly that multiset |
| Sync.RemoveEachShrinks | app/src/main/java/com/example/onesecclone/network/DataSyncService.kt:195 | removing items never adds any |
| Sync.SuccessesAreQueued | app/src/main/java/com/example/onesecclone/network/DataSyncService.kt:176-186 | every item marked for removal came from the queue |
| Sync.ReplayKeepsExactlyFailures | app/src/main/java/com/example/onesecclone/network/DataSyncService.kt:175-200 | after a replay the queue holds exactly the items whose send failed, and it never grows |
| Sync.AllFailedKeepsQueue | app/src/main/java/com/example/onesecclone/network/DataSyncService.kt:178-195 | if every send fails, nothing is removed |
| Sync.DataSyncService.constructor | app/src/main/java/com/example/onesecclone/network/DataSyncService.kt:34-37 | loading the persisted data only deletes files, so a new service starts with an empty queue |
| Sync.DataSyncService.QueueDataOffline | app/src/main/java/com/example/onesecclone/network/DataSyncService.kt:107-115 | appends the item at the tail |
| Sync.DataSyncService.SendData | app/src/main/java/com/example/onesecclone/network/DataSyncService.kt:42-68 | succeeds if and only if the network is up and the response is successful. On success the queue is unchanged; otherwise exactly this item is appended |
| Sync.DataSyncService.QueueAll | app/src/main/java/com/example/onesecclone/network/DataSyncService.kt:76-79 | queues every item, in order |
| Sync.DataSyncService.SendBatchData | app/src/main/java/com/example/onesecclone/network/DataSyncService.kt:73-104 | succeeds if and only if the network is up, the response is successful and its body says success. On failure the whole batch is appended in order |
| Sync.DataSyncService.ProcessOfflineQueue | app/src/main/java/com/example/onesecclone/network/DataSyncService.kt:175-200 | the new queue is the old one with one occurrence of each successfully sent item removed |
| Sync.DataSyncService.SyncCycle | app/src/main/java/com/example/onesecclone/network/DataSyncService.kt:158-173 | the queue is replayed only when the network is up and the queue is non-empty; otherwise it is unchanged |
| Sync.DataSyncService.GetQueueSize | app/src/main/java/com/example/onesecclone/network/DataSyncService.kt:217 | the size is the number of queued items, so it is zero exactly when the queue is empty |
| Sync.DataSyncService.ClearQueue | app/src/main/java/com/example/onesecclone/network/DataSyncService.kt:219-227 | the queue is empty afterwards and its size reads 0 |
| Analytics.MinutesBetween | app/src/main/java/com/example/onesecclone/analytics/AnalyticsService.kt:251-256 | a session's minutes are its length in whole minutes, truncated toward zero (also for sessions that run backwards) |
| Analytics.TotalMinutesAppend | app/src/main/java/com/example/onesecclone/analytics/AnalyticsService.kt:251-256 | the minute total of two lists of sessions is the sum of their totals |
| Analytics.TotalMinutesTruncatesPerSession | app/src/main/java/com/example/onesecclone/analytics/AnalyticsService.kt:251-256 | minutes are truncated per session and then summed: the total is at most the summed length and loses under a minute per session |
| Analytics.CountDelays | app/src/main/java/com/example/onesecclone/analytics/AnalyticsService.kt:218 | the number of delays is at most the number of interventions |
| Analytics.CountAbandonments | app/src/main/java/com/example/onesecclone/analytics/AnalyticsService.kt:219 | the number of abandonments is at most the number of interventions |
| Analytics.NoDelayTypeNoDelays | app/src/main/java/com/example/onesecclone/analytics/AnalyticsService.kt:218 | only the exact type "delay" counts as a delay |
| Analytics.StatsForCounts | app/src/main/java/com/example/onesecclone/analytics/AnalyticsService.kt:209-221 | an app's stats count its sessions, the taps under its package and the interventions under its label. Delays and abandonments lie between 0 and the interventions |
| Analytics.AppTotalsKeys | app/src/main/java/com/example/onesecclone/analytics/AnalyticsService.kt:206-222 | the summary has an entry for a label if and only if some package with sessions has that label. Taps and interventions alone give no entry |
| Analytics.AppTotalsLastWins | app/src/main/java/com/example/onesecclone/analytics/AnalyticsService.kt:209-222 | when two packages share a label, the entry holds the stats of the last one |
| Analytics.ScreenTimeIsSumOfAppMinutes | app/src/main/java/com/example/onesecclone/analytics/AnalyticsService.kt:258-263 | the total screen time is the sum of each package's minute total |
| Analytics.AnalyticsService.constructor | app/src/main/java/com/example/onesecclone/analytics/AnalyticsService.kt:27-34 | the store starts empty |
| Analytics.AnalyticsService.RecordAppSession | app/src/main/java/com/example/onesecclone/analytics/AnalyticsService.kt:122-137 | appends one session with start == end == now under its package; nothing else changes |
| Analytics.AnalyticsService.RecordAppTap | app/src/main/java/com/example/onesecclone/analytics/AnalyticsService.kt:139-156 | appends one tap under its package; nothing else changes |
| Analytics.AnalyticsService.RecordIntervention | app/src/main/java/com/example/onesecclone/analytics/AnalyticsService.kt:158-186 | appends one intervention with start == end == now under its app label (not its package); nothing else changes |
| Analytics.AnalyticsService.ClearDailyData | app/src/main/java/com/example/onesecclone/analytics/AnalyticsService.kt:307-311 | all three stores are empty afterwards |
| Analytics.AnalyticsService.GenerateAndSendDailySummary | app/src/main/java/com/example/onesecclone/analytics/AnalyticsService.kt:204-249 | the summary carries the per-app totals and the screen time of the old store, and the store is empty afterwards |
| Platform.UsedStats | app/src/main/java/com/example/onesecclone/MainService.kt:307 | keeps exactly the rows with a positive last-used time |
| Platform.UsedStatsAppend | app/src/main/java/com/example/onesecclone/MainService.kt:307 | `filter` keeps order and duplicates: filtering a concatenation is the concatenation of the filtered parts |
| Platform.MaxUsedIsFirstInQuery | app/src/main/java/com/example/onesecclone/MainService.kt:307-308 | `maxByOrNull` over the used rows picks, in the unfiltered query, the first used row with the greatest last-used time: no used row is newer and every used row before it is strictly older |
| Platform.MostRecentIndex | app/src/main/java/com/example/onesecclone/MainService.kt:308 | finds the first row with the greatest last-used time |
| Platform.MaxByLastTimeUsed | app/src/main/java/com/example/onesecclone/MainService.kt:308 | `maxByOrNull`: null exactly for an empty list, otherwise the FIRST row with the greatest last-used time (every earlier row is strictly older) |
| Platform.FindPackage | app/src/main/java/com/example/onesecclone/MainService.kt:324 | `find`: null exactly when no row has the package, otherwise the FIRST row of that package (no earlier row has it) |
| Monitor.StartMonitoringIdempotent | app/src/main/java/com/example/onesecclone/MainService.kt:81-88 | a second start while monitoring changes nothing, start only sets the flag, and only destroy clears it |
| Monitor.ForegroundIsMostRecentlyUsed | app/src/main/java/com/example/onesecclone/MainService.kt:297-332 | when the short query has a used row, the current package is that of the first used row with the greatest last-used time |
| Monitor.ForegroundSources | app/src/main/java/com/example/onesecclone/MainService.kt:297-332 | the current package is either "", the short query's first most recently used one, or the last detected app kept by the fallback (most recent in the long query and used under 3 s ago) |
| Monitor.MostRecentFromLongQuery | app/src/main/java/com/example/onesecclone/MainService.kt:317-327 | the long query's pick is the package of its first used row with the greatest last-used time |
| Monitor.FallbackKeepsLastDetectedApp | app/src/main/java/com/example/onesecclone/MainService.kt:311-328 | with an empty short reading, the last detected app is kept when the long query confirms it within 3 s |
| Monitor.TapRecordedIffCooldownElapsed | app/src/main/java/com/example/onesecclone/MainService.kt:228-250 | on entering a tracked app, a tap is recorded if and only if 3000 ms have passed since its last recorded tap (a missing entry reads 0). Both tap maps change only then |
| Monitor.NoTapWithoutTransition | app/src/main/java/com/example/onesecclone/MainService.kt:101-148 | every tick leaves the last detected app equal to the current one. Staying in an app or being outside the tracked apps records no tap |
| Monitor.SessionStartNeedsEarlierTap | app/src/main/java/com/example/onesecclone/MainService.kt:169-190 | a session start moves only on a switch to a target app with a valid tap from an earlier tick; that tap is consumed |
| Monitor.TapsExpireAfterValidityWindow | app/src/main/java/com/example/onesecclone/MainService.kt:203-206 | after usage recording every kept tap is at most 5000 ms old, and a tap exactly 5000 ms old still counts |
| Monitor.LeavingTargetRecordsOneSession | app/src/main/java/com/example/onesecclone/MainService.kt:192-201 | leaving a target app for a non-target package with an open session records exactly that session up to now and resets the start |
| Monitor.TargetSwitchWithoutTapKeepsSession | app/src/main/java/com/example/onesecclone/MainService.kt:169-190 | a switch between target apps without a valid tap records nothing and keeps the start |
| Monitor.StayingChangesNoSession | app/src/main/java/com/example/onesecclone/MainService.kt:158-207 | staying in the same app records nothing and keeps the start |
| Monitor.SessionsAreWellOrdered | app/src/main/java/com/example/onesecclone/MainService.kt:175-200 | recorded sessions have 0 < start <= end == now, and a tick records at most one |
| Monitor.OverlayGate | app/src/main/java/com/example/onesecclone/MainService.kt:112-119 | the overlay starts if and only if the app is Instagram, no overlay is running and 15000 ms have passed since the last skip |
| Monitor.IdleTickChangesNothing | app/src/main/java/com/example/onesecclone/MainService.kt:92-153 | a tick that is not monitoring or has the screen off changes nothing and emits nothing |
| Monitor.OpenAndStayRecordsNoSession | app/src/main/java/com/example/onesecclone/MainService.kt:158-207 | opening Instagram records a tap; staying and then leaving records no session |
| Monitor.ReturnWithinWindowRecordsSession | app/src/main/java/com/example/onesecclone/MainService.kt:158-207 | tap, leave, return within 5 s: the return opens a session that is recorded on leaving again |
| Monitor.MainService.constructor | app/src/main/java/com/example/onesecclone/MainService.kt:19-42 | a new instance starts idle with empty tap maps, while the companion's last detected app and session start carry over from an earlier instance in the same process |
| Monitor.MainService.StartMonitoring | app/src/main/java/com/example/onesecclone/MainService.kt:81-89 | the new state is the start update of the old one |
| Monitor.MainService.OnDestroy | app/src/main/java/com/example/onesecclone/MainService.kt:349-355 | the new state is the destroy update of the old one |
| Monitor.MainService.RecordAppUsage | app/src/main/java/com/example/onesecclone/MainService.kt:158-207 | the new state and the emitted calls are those of the usage update |
| Monitor.MainService.RecordTap | app/src/main/java/com/example/onesecclone/MainService.kt:228-290 | the new state and the emitted calls are those of the tap update |
| Monitor.MainService.DetectForeground | app/src/main/java/com/example/onesecclone/MainService.kt:100-147 | the new state and the emitted calls are those of the `when` over the tracked packages: a tap on entering one, the overlay gate for Instagram, and the package as the last detected app |
| Monitor.MainService.Tick | app/src/main/java/com/example/onesecclone/MainService.kt:90-153 | the new state and the emitted calls are those of one loop iteration |
| Overlay.InterventionFor | app/src/main/java/com/example/onesecclone/OverlayService.kt:210-228 | every recorded intervention is for "Instagram", of type "video_delay", with required watch time 10, the clicked label and the overlay's start time |
| Overlay.RecordedDurationIsWholeSeconds | app/src/main/java/com/example/onesecclone/OverlayService.kt:218 | the recorded video duration is the stored milliseconds in whole seconds, rounded down |
| Overlay.WatchTime | app/src/main/java/com/example/onesecclone/OverlayService.kt:213 | the watch time is 10000 if the countdown finished, else the time since the video started, never negative |
| Overlay.CountdownTextShowsSecondsLeft | app/src/main/java/com/example/onesecclone/OverlayService.kt:147-152 | the countdown label shows the whole seconds left |
| Overlay.SkipClock.constructor | app/src/main/java/com/example/onesecclone/OverlayService.kt:249-252 | the last skip time starts at 0 |
| Overlay.SkipClock.UpdateLastSkipTime | app/src/main/java/com/example/onesecclone/OverlayService.kt:255-257 | sets the last skip time |
| Overlay.OverlayService.constructor | app/src/main/java/com/example/onesecclone/OverlayService.kt:37-42 | the overlay starts with skip disabled and its label empty, nothing recorded and the video not watched |
| Overlay.OverlayService.Finish | app/src/main/java/com/example/onesecclone/OverlayService.kt:210-228 | records exactly one intervention with the given label and stops |
| Overlay.OverlayService.OnTick | app/src/main/java/com/example/onesecclone/OverlayService.kt:148-152 | updates the label and keeps skip disabled |
| Overlay.OverlayService.OnFinish | app/src/main/java/com/example/onesecclone/OverlayService.kt:154-158 | enables skip and marks the video as watched |
| Overlay.OverlayService.ClickClose | app/src/main/java/com/example/onesecclone/OverlayService.kt:112-137 | records one "Close app" intervention built from the duration and start time held before the click, and stops. Every other field keeps its value and the skip clock is untouched |
| Overlay.OverlayService.ClickSkip | app/src/main/java/com/example/onesecclone/OverlayService.kt:139-145 | an enabled skip records one "Skip to app" intervention built from the duration and start time held before the click, sets the skip clock and stops. Every other field keeps its value. A disabled or stopped overlay changes nothing |
| Overlay.OverlayService.PlayerReady | app/src/main/java/com/example/onesecclone/OverlayService.kt:184-187 | stores the video duration. Nothing is recorded and every other field keeps its value |
| Overlay.OverlayService.PlayerEnded | app/src/main/java/com/example/onesecclone/OverlayService.kt:188-192 | records one "Video completed" intervention built from the duration and start time held before the event, and stops. Every other field keeps its value |
| Overlay.OverlayService.PlayerError | app/src/main/java/com/example/onesecclone/OverlayService.kt:196-200 | records one "Video error" intervention built from the duration and start time held before the event, and stops. Every other field keeps its value |
| UsageTracking.SessionOf | app/src/main/java/com/example/onesecclone/usage/UsageSessionTracker.kt:105-121 | the imported session ends at the last-used time and lasts the foreground time |
| UsageTracking.ImportedSessions | app/src/main/java/com/example/onesecclone/usage/UsageSessionTracker.kt:82-89 | a pass imports at most one session per stat |
| UsageTracking.CountNewUsage | app/src/main/java/com/example/onesecclone/usage/UsageSessionTracker.kt:80-89 | the counter never exceeds the number of rows |
| UsageTracking.ImportedSessionsComplete | app/src/main/java/com/example/onesecclone/usage/UsageSessionTracker.kt:82-89 | a row is imported if and only if it is new (strictly after the watermark, positive time) and longer than 10000 ms |
| UsageTracking.ImportedAtMostCounted | app/src/main/java/com/example/onesecclone/usage/UsageSessionTracker.kt:82-125 | no more sessions are imported than new rows are counted |
| UsageTracking.CurrentForegroundApp | app/src/main/java/com/example/onesecclone/usage/UsageSessionTracker.kt:33-53 | null without permission or for an empty list, otherwise the package of the FIRST row with the greatest last-used time (every earlier row is strictly older) |
| UsageTracking.UsageSessionTracker.constructor | app/src/main/java/com/example/onesecclone/usage/UsageSessionTracker.kt:11-21 | the watermark starts at 0 and nothing is recorded |
| UsageTracking.UsageSessionTracker.CheckForNewSessions | app/src/main/java/com/example/onesecclone/usage/UsageSessionTracker.kt:59-100 | without permission nothing changes. The first run starts from now − 1 day. A failed query leaves the watermark at its pre-query value. A successful pass imports the new sessions and moves the watermark to now |
| ScreenTimeViewModel.Foreground | app/src/main/java/com/example/onesecclone/ScreenTimeViewModel.kt:38 | keeps exactly the rows with positive foreground time |
| ScreenTimeViewModel.ForegroundAppend | app/src/main/java/com/example/onesecclone/ScreenTimeViewModel.kt:38 | `filter` keeps order and duplicates: filtering a concatenation is the concatenation of the filtered parts |
| ScreenTimeViewModel.Packages | app/src/main/java/com/example/onesecclone/ScreenTimeViewModel.kt:39 | the group keys are the packages present, each once |
| ScreenTimeViewModel.PackagesInFirstRowOrder | app/src/main/java/com/example/onesecclone/ScreenTimeViewModel.kt:39 | `groupBy` lists its keys in the order of their first rows: every row of a later key comes after some row of each earlier key |
| ScreenTimeViewModel.Summaries | app/src/main/java/com/example/onesecclone/ScreenTimeViewModel.kt:40-48 | a row is produced exactly for each allowed key, holding its group's summed time truncated to minutes |
| ScreenTimeViewModel.SummariesAppend | app/src/main/java/com/example/onesecclone/ScreenTimeViewModel.kt:40-48 | the rows follow the key order: the rows of concatenated key lists are the concatenated rows |
| ScreenTimeViewModel.TotalOfForegroundRows | app/src/main/java/com/example/onesecclone/ScreenTimeViewModel.kt:38-43 | after the filter, each group's total is positive |
| ScreenTimeViewModel.ForegroundPackages | app/src/main/java/com/example/onesecclone/ScreenTimeViewModel.kt:37-39 | a package forms a group if and only if one of its rows has foreground time |
| ScreenTimeViewModel.LoadUsageStatsShowsTrackedApps | app/src/main/java/com/example/onesecclone/ScreenTimeViewModel.kt:22-51 | the list shows a package if and only if it is one of the three tracked apps and had foreground time |
| ScreenTimeViewModel.LoadUsageStatsRows | app/src/main/java/com/example/onesecclone/ScreenTimeViewModel.kt:37-48 | each package appears at most once, so there are at most 3 rows |
| ScreenTimeViewModel.LoadUsageStatsRowMinutes | app/src/main/java/com/example/onesecclone/ScreenTimeViewModel.kt:40-44 | a row's minutes are its package's summed foreground time in whole minutes, truncated |
| ScreenTimeViewModel.LoadUsageStatsMinutes | app/src/main/java/com/example/onesecclone/ScreenTimeViewModel.kt:40-44 | every row's minutes are its package's summed foreground time in whole minutes, truncated |
| ScreenTimeViewModel.LoadUsageStatsOrder | app/src/main/java/com/example/onesecclone/ScreenTimeViewModel.kt:50 | the list is sorted by minutes, largest first, and rows with equal minutes keep their relative order from the unsorted list (itself in key order, see PackagesInFirstRowOrder and SummariesAppend) |
| ScreenTimeViewModel.SumThenTruncate | app/src/main/java/com/example/onesecclone/ScreenTimeViewModel.kt:42-43 | time is summed before truncating: two 40-second rows make one minute |
| Sorting.SortDescCorrect | app/src/main/java/com/example/onesecclone/ScreenTimeViewModel.kt:50 | the sort's result is ordered by key, is a permutation of its input, and keeps equal keys in their input order |
| Sorting.SortDescDistinctBy | app/src/main/java/com/example/onesecclone/ScreenTimeViewModel.kt:50 | sorting keeps rows distinct by package |
| ScreenTimeFragment.SessionFor | app/src/main/java/com/example/onesecclone/ScreenTimeFragment.kt:114-122 | a session runs from the pending start to the background event, with its whole minutes and remaining whole seconds |
| ScreenTimeFragment.LastTrackedForeground | app/src/main/java/com/example/onesecclone/ScreenTimeFragment.kt:107-113 | finds the last foreground event of a tracked package, if any |
| ScreenTimeFragment.PairTracksLastForeground | app/src/main/java/com/example/onesecclone/ScreenTimeFragment.kt:107-124 | the pending app and its start come from the last tracked foreground event. Other packages' foreground events are ignored |
| ScreenTimeFragment.PairMatchesReference | app/src/main/java/com/example/onesecclone/ScreenTimeFragment.kt:107-124 | the loop emits a session for a background event exactly when the last tracked foreground event is of the same package |
| ScreenTimeFragment.SessionsAtMostEvents | app/src/main/java/com/example/onesecclone/ScreenTimeFragment.kt:107-124 | there are no more sessions than events, and none without a tracked foreground event |
| ScreenTimeFragment.RepeatedBackgroundRepeatsSession | app/src/main/java/com/example/onesecclone/ScreenTimeFragment.kt:113 | the pending app is not cleared, so a repeated background event emits a second session with the same start |
| ScreenTimeFragment.DisplayAppSessions | app/src/main/java/com/example/onesecclone/ScreenTimeFragment.kt:90-135 | the listed sessions are the paired sessions, sorted newest first |
| ScreenTimeFragment.DurationTextSeconds | app/src/main/java/com/example/onesecclone/ScreenTimeFragment.kt:178 | under a minute the text is "Ns" |
| ScreenTimeFragment.DurationTextMinutes | app/src/main/java/com/example/onesecclone/ScreenTimeFragment.kt:179-183 | under an hour the text is "Mm", or "Mm Ss" when seconds remain |
| ScreenTimeFragment.DurationTextHours | app/src/main/java/com/example/onesecclone/ScreenTimeFragment.kt:184-188 | from an hour on the text is "Hh", or "Hh Mm" when minutes remain; seconds are dropped |
| StudyInfo.DateTimeOrder | app/src/main/java/com/example/onesecclone/StudyInfoFragment.kt:183-187 | a date and a time of day combine into an instant ordered by date first, then time |
| StudyInfo.SessionsInRange | app/src/main/java/com/example/onesecclone/StudyInfoFragment.kt:274-279 | the filtered sessions are sent as session events, at most one per stored session |
| StudyInfo.SessionsInRangeExactly | app/src/main/java/com/example/onesecclone/StudyInfoFragment.kt:274-279 | a session is sent if and only if it is stored and its start lies in [start, end], both ends inclusive |
| StudyInfo.InterventionsInRange | app/src/main/java/com/example/onesecclone/StudyInfoFragment.kt:282-287 | the filtered interventions are sent as intervention events, at most one per stored intervention |
| StudyInfo.InterventionsInRangeExactly | app/src/main/java/com/example/onesecclone/StudyInfoFragment.kt:282-287 | an intervention is sent if and only if it is stored and its start lies in [start, end], both ends inclusive |
| StudyInfo.GetFilteredAnalyticsData | app/src/main/java/com/example/onesecclone/StudyInfoFragment.kt:266-290 | the loops produce the sessions in range, then the interventions in range |
| StudyInfo.FilteredDataContents | app/src/main/java/com/example/onesecclone/StudyInfoFragment.kt:266-290 | the sessions come first and the interventions after, and there are no taps |
| StudyInfo.WholeRangeSendsEverything | app/src/main/java/com/example/onesecclone/StudyInfoFragment.kt:350 | when everything lies in the range, the batch size is the preview's total item count |
| StudyInfo.SessionsAllInRange | app/src/main/java/com/example/onesecclone/StudyInfoFragment.kt:274-279 | sessions that all lie in the range are all kept |
| StudyInfo.InterventionsAllInRange | app/src/main/java/com/example/onesecclone/StudyInfoFragment.kt:282-287 | interventions that all lie in the range are all kept |
| StudyInfo.DurationMinutesAgree | app/src/main/java/com/example/onesecclone/StudyInfoFragment.kt:308-311 | whole minutes counted through whole seconds equal whole minutes counted from the milliseconds |
| StudyInfo.AppTotalMatchesSummary | app/src/main/java/com/example/onesecclone/StudyInfoFragment.kt:306-311 | the preview's per-app minutes equal the daily summary's minute total over that app's sessions |
| StudyInfo.DurationStringShowsParts | app/src/main/java/com/example/onesecclone/StudyInfoFragment.kt:318-327 | the text is "Hh Mm Ss", "Mm Ss" or "Ss" with minutes and seconds below 60, adding up to the whole seconds |
| StudyInfo.SecondsSplit | app/src/main/java/com/example/onesecclone/StudyInfoFragment.kt:318-327 | hours, minutes mod 60 and seconds mod 60 add back up to the seconds |
| StudyInfo.StudyInfoFragment.constructor | app/src/main/java/com/example/onesecclone/StudyInfoFragment.kt:43-46 | no bound is picked yet |
| StudyInfo.StudyInfoFragment.GetStartDateTime | app/src/main/java/com/example/onesecclone/StudyInfoFragment.kt:183-187 | the start instant exists if and only if both its date and its time are set |
| StudyInfo.StudyInfoFragment.GetEndDateTime | app/src/main/java/com/example/onesecclone/StudyInfoFragment.kt:189-193 | the end instant exists if and only if both its date and its time are set |
| StudyInfo.StudyInfoFragment.UpdateSendButtonState | app/src/main/java/com/example/onesecclone/StudyInfoFragment.kt:195-206 | the send button is enabled if and only if all four parts are set |
| StudyInfo.StudyInfoFragment.PickStartDate | app/src/main/java/com/example/onesecclone/StudyInfoFragment.kt:74-81 | sets the start date and refreshes the button |
| StudyInfo.StudyInfoFragment.PickStartTime | app/src/main/java/com/example/onesecclone/StudyInfoFragment.kt:83-90 | sets the start time and refreshes the button |
| StudyInfo.StudyInfoFragment.PickEndDate | app/src/main/java/com/example/onesecclone/StudyInfoFragment.kt:92-99 | sets the end date and refreshes the button |
| StudyInfo.StudyInfoFragment.PickEndTime | app/src/main/java/com/example/onesecclone/StudyInfoFragment.kt:101-108 | sets the end time and refreshes the button |
| StudyInfo.StudyInfoFragment.StartAfterEndByPicks | app/src/main/java/com/example/onesecclone/StudyInfoFragment.kt:217 | with valid picked times, the start is after the end exactly when its date is later, or the dates are equal and its time is later |
| StudyInfo.StudyInfoFragment.SendBatchData | app/src/main/java/com/example/onesecclone/StudyInfoFragment.kt:208-264 | refuses when a bound is missing or the start is after the end (start == end is accepted). It stops when the service is down or nothing is in range. Otherwise it sends the filtered batch, which is queued on failure |
| ServerSettings.TrimKeepsMiddle | app/src/main/java/com/example/onesecclone/ui/settings/ServerSettingsFragment.kt:86 | trimming keeps exactly the text between leading and trailing whitespace |
| ServerSettings.TrimStartDropsWhitespace | app/src/main/java/com/example/onesecclone/ui/settings/ServerSettingsFragment.kt:86 | every character trimming drops at the front is whitespace |
| ServerSettings.TrimEndDropsWhitespace | app/src/main/java/com/example/onesecclone/ui/settings/ServerSettingsFragment.kt:86 | every character trimming drops at the end is whitespace |
| ServerSettings.TrimIdempotent | app/src/main/java/com/example/onesecclone/ui/settings/ServerSettingsFragment.kt:86 | a trimmed text has no whitespace at its ends, so trimming again changes nothing |
| ServerSettings.IsValidUrlMatchesPattern | app/src/main/java/com/example/onesecclone/ui/settings/ServerSettingsFragment.kt:99-106 | the check accepts a text if and only if it matches the URL pattern as a whole, and no match needs the port group |
| ServerSettings.ValidUrlMatchesWithoutPort | app/src/main/java/com/example/onesecclone/ui/settings/ServerSettingsFragment.kt:101 | every accepted text matches the pattern with the port group empty |
| ServerSettings.ValidUrlOf | app/src/main/java/com/example/onesecclone/ui/settings/ServerSettingsFragment.kt:99-106 | a scheme, a non-empty host without '/', and an empty path or '/' followed by no line terminator pass the URL check |
| ServerSettings.PatternMatchIsValidUrl | app/src/main/java/com/example/onesecclone/ui/settings/ServerSettingsFragment.kt:101 | every pattern match is accepted |
| ServerSettings.PortGroupNotNeeded | app/src/main/java/com/example/onesecclone/ui/settings/ServerSettingsFragment.kt:101 | "http://h:abc/" is accepted: the host group absorbs any port text |
| ServerSettings.LegacyUrlPassesCheck | app/src/main/java/com/example/onesecclone/ui/settings/ServerSettingsFragment.kt:99-106 | the legacy address that the base-URL read refuses still passes the check |
| ServerSettings.UrlRejections | app/src/main/java/com/example/onesecclone/ui/settings/ServerSettingsFragment.kt:99-106 | a missing host, a '/' right after the scheme, or another scheme is rejected |
| ServerSettings.HandleEnvironmentSelection | app/src/main/java/com/example/onesecclone/ui/settings/ServerSettingsFragment.kt:62-73 | CUSTOM only opens the dialog and changes nothing. Any other choice applies that environment |
| ServerSettings.SaveCustomUrl | app/src/main/java/com/example/onesecclone/ui/settings/ServerSettingsFragment.kt:85-94 | the trimmed text is stored if and only if it passes the check. Invalid input leaves the client unchanged |
| Server.TableFor | server/server.js:111-153 | a table is chosen if and only if the eventType is one of the five tag strings, and it is that tag's table |
| Server.Columns | server/server.js:112-149 | every insert's column list starts with device_id and user_id |
| Server.RowFor | server/server.js:112-149 | every row binds one value per column, the device id first and the user id second |
| Server.Insert | server/server.js:107-157 | an eventType that is not one of the five tag strings changes nothing |
| Server.InsertAppendsRow | server/server.js:107-157 | the table whose tag equals eventType gains exactly that row at its end, and every other table keeps its rows |
| Server.InsertEachStep | server/server.js:88-90 | the batch loop inserts its items one after another, in array order |
| Server.InsertEachAppends | server/server.js:88-90 | sequential inserts of items of one table append their rows in array order |
| Server.RowsFor | server/server.js:88-90 | a batch adds at most one row per item, each with the request's device and user ids |
| Server.FirstThrow | server/server.js:88-103 | the loop stops at the first item whose insert throws; every earlier item does not throw |
| Server.AnalyticsServer.constructor | server/server.js:107-157 | the database starts empty |
| Server.AnalyticsServer.Health | server/server.js:37-43 | always answers 200 with success true and the current time |
| Server.AnalyticsServer.InsertAnalyticsData | server/server.js:107-157 | throws if and only if the item is null or the database fails. Otherwise the database is the insert of the item |
| Server.AnalyticsServer.PostData | server/server.js:46-73 | a missing or empty device header gives 400 and inserts nothing. Otherwise the item is inserted with a null user id (200), or a failure gives 500 with nothing inserted |
| Server.AnalyticsServer.PostBatch | server/server.js:76-104 | an invalid body gives 400 and inserts nothing. Otherwise the items up to the first throwing one are inserted in order: 200 if none threw, else 500 with the earlier rows kept |
| Server.SerializedRecordRow | server/server.js:111-149 | the app's JSON for a record selects the record's own table and yields the row of the record's fields |
| Server.SessionRow | server/server.js:112-117 | a session's JSON yields the app_sessions row of its fields |
| Server.TapRow | server/server.js:119-124 | a tap's JSON yields the app_taps row of its fields |
| Server.InterventionRow | server/server.js:126-133 | an intervention's JSON yields the interventions row, with null for an absent optional field |
| Server.StatusRow | server/server.js:135-142 | a device status's JSON yields the device_status row of its fields |
| Server.SummaryRow | server/server.js:144-149 | a daily summary's JSON yields the daily_summaries row of its fields |
| Server.SerializedRecordLands | server/server.js:107-157 | inserting the app's JSON for a record appends its field row to the record's own table |
| Server.BatchBodyValid | server/server.js:78-85 | the batch body the app builds passes the server's format check whenever the device id is non-empty |
| Server.SerializedNeverThrows | server/server.js:88-90 | no serialized app record makes an insert throw when the database does not fail |
| Server.RowsForSerialized | server/server.js:88-90 | the rows built from serialized records are the records' field rows |
| Server.AppBatchIsStored | server/server.js:76-96 | a batch the app sends passes validation, is inserted completely, and appends each record's field row to its table in order |
| Server.NullItemAfterRecord | server/server.js:88-103 | a null item after a record throws: the record's row stays inserted although the answer is 500 |

## Left out

- Android UI: layouts, views, Toasts, dialogs and pickers. Their inputs (a picked date, the typed URL, a button press) are method parameters. The server options list, the home screen, the main and dashboard activities, the usage-access helper and the boot receiver are platform glue and are not modelled.
- Media playback: ExoPlayer in the overlay service and the video screens. Only the overlay's outcome state and the fields it records are modelled.
- Retrofit and OkHttp setup, interceptors and the `ApiService` interface. Network availability and each response's outcome are inputs (`Sync.Attempt`).
- Disk I/O in `DataSyncService`: the offline queue is a sequence, and loading persisted files is modelled only by its effect (an empty queue at start).
- Concurrency: coroutines, `synchronized`, `@Volatile`, the concurrent queue and the `delay` / AlarmManager scheduling. Each tick, sync cycle or callback is one sequential method call.
- Wall-clock and time zones: instants are integer milliseconds. The study screen's local date and time are combined in UTC, so time-zone offsets and daylight-saving changes are not modelled. ISO-8601 text is a JSON value holding the instant.
- The package-label lookup is an opaque function parameter that falls back to the package name. Battery and connectivity probes are inputs.
- The static recorders called by the monitoring loop, the overlay, the usage tracker and the screens (`AnalyticsService.*Static`), and `getInstance`, `getAllSessions`, `clearAllDataStatic`, `getRecent*`, `sendDataWithRetry` and `performHealthCheck` are not defined in these sources. Calls to the recorders are kept as emitted records. The rest are not modelled.
- The debug data-flow screen, the database monitoring script and the build configuration file are not part of this model.
- Server: the rate limiter (server/server.js lines 30-34) and the error-handling middleware (lines 159-165) are not modelled, nor are logging, connection pooling and the `created_at` timestamp. The `app_totals` column holds the totals value rather than its `JSON.stringify` text. JSON `null` and a missing field are one value (`JNull`), as both reach the database as NULL.
- Server.AnalyticsServer.PostData: the body arrives as a parsed JSON value, so a body the JSON parser rejects is not modelled.
- ServerSettings.IsValidUrlMatchesPattern: the regex engine itself is not modelled. The pattern's meaning is written out group by group (`ServerSettings.PatternParts`), and the scan is proved equal to it.
- Monitor.MainService.Tick: one `now` stands for every clock read of a loop pass. The source reads `System.currentTimeMillis()` separately in `getCurrentAppPackage`, `recordAppUsage`, each `record*Tap` and the overlay cooldown check, so the milliseconds that pass between those reads are not modelled.
- Network.NetworkClient.GetDeviceId: reading `ANDROID_ID` is modelled as yielding a string or throwing (`None`). A `null` returned by `Settings.Secure.getString` without throwing is not modelled.
- Kotlin `Long` overflow in duration and minute arithmetic is not modelled: integers are unbounded there. Only the explicit `toInt()` of the overlay's recorded duration wraps (`Lang.ToInt32`).
