/** The in-process event store of `AnalyticsService`: three map-of-lists stores
    (sessions and taps keyed by package, interventions keyed by app name), the
    `record*` appends, and the daily summary that aggregates and then clears
    them. */
module Analytics {
  import opened Lang
  import opened Events

  const MS_PER_MINUTE := 60000
  /** The only `interventionType` the summary counts as a delay. */
  const DELAY_TYPE := "delay"
  /** The only `buttonClicked` label the summary counts as an abandonment. */
  const CLOSE_APP := "Close app"

  /** `ChronoUnit.MINUTES.between(start, end)`: whole minutes, truncated toward
      zero (negative when `end` is before `start`). */
  function MinutesBetween(start: int, end: int): (m: int)
    ensures start <= end ==> 0 <= m && m * MS_PER_MINUTE <= end - start < (m + 1) * MS_PER_MINUTE
    ensures end < start ==> m <= 0 && (m - 1) * MS_PER_MINUTE < end - start <= m * MS_PER_MINUTE
  {
    TruncDiv(end - start, MS_PER_MINUTE)
  }

  /** `calculateTotalMinutes`: each session's whole minutes, then summed. */
  function TotalMinutes(sessions: seq<AppSession>): int
  {
    if sessions == [] then 0
    else MinutesBetween(sessions[0].sessionStart, sessions[0].sessionEnd) + TotalMinutes(sessions[1..])
  }

  /** The sum of the raw session lengths in milliseconds. */
  function TotalDuration(sessions: seq<AppSession>): int
  {
    if sessions == [] then 0
    else (sessions[0].sessionEnd - sessions[0].sessionStart) + TotalDuration(sessions[1..])
  }

  predicate Forward(sessions: seq<AppSession>)
  {
    forall i :: 0 <= i < |sessions| ==> sessions[i].sessionStart <= sessions[i].sessionEnd
  }

  /** Minute totals add up over concatenated session lists. */
  lemma {:induction false} TotalMinutesAppend(a: seq<AppSession>, b: seq<AppSession>)
    ensures TotalMinutes(a + b) == TotalMinutes(a) + TotalMinutes(b)
    decreases |a|
  {
    if a != [] {
      assert (a + b)[1..] == a[1..] + b;
      TotalMinutesAppend(a[1..], b);
    } else {
      assert a + b == b;
    }
  }

  /** Truncating each session before summing never over-counts: the whole
      minutes fit in the summed raw duration, and each session loses less than
      a minute. */
  lemma {:induction false} TotalMinutesTruncatesPerSession(sessions: seq<AppSession>)
    requires Forward(sessions)
    ensures 0 <= TotalMinutes(sessions)
    ensures TotalMinutes(sessions) * MS_PER_MINUTE <= TotalDuration(sessions)
    ensures TotalDuration(sessions) < (TotalMinutes(sessions) + |sessions|) * MS_PER_MINUTE
      || sessions == []
  {
    if sessions != [] {
      TotalMinutesTruncatesPerSession(sessions[1..]);
    }
  }

  /** Number of interventions whose type is exactly "delay". */
  function CountDelays(ivs: seq<Intervention>): (n: nat)
    ensures n <= |ivs|
  {
    if ivs == [] then 0
    else (if ivs[0].interventionType == DELAY_TYPE then 1 else 0) + CountDelays(ivs[1..])
  }

  /** Number of interventions closed with exactly "Close app". */
  function CountAbandonments(ivs: seq<Intervention>): (n: nat)
    ensures n <= |ivs|
  {
    if ivs == [] then 0
    else (if ivs[0].buttonClicked == CLOSE_APP then 1 else 0) + CountAbandonments(ivs[1..])
  }

  /** An intervention list in which no record has type "delay" (for instance
      the overlay's "video_delay" records) contributes no delays. */
  lemma {:induction false} NoDelayTypeNoDelays(ivs: seq<Intervention>)
    requires forall i :: 0 <= i < |ivs| ==> ivs[i].interventionType != DELAY_TYPE
    ensures CountDelays(ivs) == 0
  {
    if ivs != [] {
      NoDelayTypeNoDelays(ivs[1..]);
    }
  }

  /** Kotlin's `m[k] ?: emptyList()`. */
  function ListOr<T>(m: map<string, seq<T>>, k: string): seq<T>
  {
    if k in m then m[k] else []
  }

  /** The `AppStats` built for one package in the summary loop. */
  function StatsFor(sessions: seq<AppSession>, taps: map<string, seq<AppTap>>,
                    interventions: map<string, seq<Intervention>>,
                    packageName: string, appName: string): AppStats
  {
    var ivs := ListOr(interventions, appName);
    AppStats(
      minutes := TotalMinutes(sessions),
      sessions := |sessions|,
      totalTaps := |ListOr(taps, packageName)|,
      totalDelays := CountDelays(ivs),
      totalAbandonments := CountAbandonments(ivs),
      totalInterruptions := |ivs|)
  }

  /** What each `AppStats` counter means: sessions and taps of the package,
      interventions of the resolved app name, and delays and abandonments as
      subsets of those interventions. */
  lemma StatsForCounts(sessions: seq<AppSession>, taps: map<string, seq<AppTap>>,
                       interventions: map<string, seq<Intervention>>,
                       packageName: string, appName: string)
    ensures var st := StatsFor(sessions, taps, interventions, packageName, appName);
      && st.sessions == |sessions|
      && st.totalTaps == (if packageName in taps then |taps[packageName]| else 0)
      && st.totalInterruptions == (if appName in interventions then |interventions[appName]| else 0)
      && 0 <= st.totalDelays <= st.totalInterruptions
      && 0 <= st.totalAbandonments <= st.totalInterruptions
  {
  }

  /** The `appTotals` map after the summary loop has visited the packages of
      `order` in turn; a later package whose app name collides overwrites. */
  function AppTotals(order: seq<string>, appSessions: map<string, seq<AppSession>>,
                     appTaps: map<string, seq<AppTap>>,
                     interventions: map<string, seq<Intervention>>,
                     appNameOf: string -> string): map<string, AppStats>
    requires forall p :: p in order ==> p in appSessions
  {
    if order == [] then map[]
    else
      var p := order[|order| - 1];
      AppTotals(order[..|order| - 1], appSessions, appTaps, interventions, appNameOf)
        [appNameOf(p) := StatsFor(appSessions[p], appTaps, interventions, p, appNameOf(p))]
  }

  /** The summary names exactly the apps that have sessions: packages with
      only taps or interventions get no entry. */
  lemma {:induction false} AppTotalsKeys(order: seq<string>, appSessions: map<string, seq<AppSession>>,
                                         appTaps: map<string, seq<AppTap>>,
                                         interventions: map<string, seq<Intervention>>,
                                         appNameOf: string -> string, name: string)
    requires forall p :: p in order ==> p in appSessions
    ensures name in AppTotals(order, appSessions, appTaps, interventions, appNameOf)
        <==> exists p :: p in order && appNameOf(p) == name
  {
    if order != [] {
      var init := order[..|order| - 1];
      AppTotalsKeys(init, appSessions, appTaps, interventions, appNameOf, name);
      if name != appNameOf(order[|order| - 1]) {
        assert (exists p :: p in order && appNameOf(p) == name) ==> (exists p :: p in init && appNameOf(p) == name) by {
          if exists p :: p in order && appNameOf(p) == name {
            var p :| p in order && appNameOf(p) == name;
            assert p != order[|order| - 1];
            assert p in init by {
              var k :| 0 <= k < |order| && order[k] == p;
              assert k < |order| - 1;
              assert init[k] == p;
            }
          }
        }
      }
    }
  }

  /** The entry of an app is the `AppStats` of the last visited package that
      resolves to that app name. */
  lemma {:induction false} AppTotalsLastWins(order: seq<string>, appSessions: map<string, seq<AppSession>>,
                                             appTaps: map<string, seq<AppTap>>,
                                             interventions: map<string, seq<Intervention>>,
                                             appNameOf: string -> string, i: nat)
    requires forall p :: p in order ==> p in appSessions
    requires i < |order|
    requires forall j :: i < j < |order| ==> appNameOf(order[j]) != appNameOf(order[i])
    ensures appNameOf(order[i]) in AppTotals(order, appSessions, appTaps, interventions, appNameOf)
    ensures AppTotals(order, appSessions, appTaps, interventions, appNameOf)[appNameOf(order[i])]
         == StatsFor(appSessions[order[i]], appTaps, interventions, order[i], appNameOf(order[i]))
  {
    if i < |order| - 1 {
      var init := order[..|order| - 1];
      assert init[i] == order[i];
      AppTotalsLastWins(init, appSessions, appTaps, interventions, appNameOf, i);
    }
  }

  /** `appSessions.values.flatten()`: the session lists in key-insertion order. */
  function Flatten(order: seq<string>, appSessions: map<string, seq<AppSession>>): seq<AppSession>
    requires forall p :: p in order ==> p in appSessions
  {
    if order == [] then [] else appSessions[order[0]] + Flatten(order[1..], appSessions)
  }

  /** The per-app minute totals of the packages in `order`, summed. */
  function SumAppMinutes(order: seq<string>, appSessions: map<string, seq<AppSession>>): int
    requires forall p :: p in order ==> p in appSessions
  {
    if order == [] then 0 else TotalMinutes(appSessions[order[0]]) + SumAppMinutes(order[1..], appSessions)
  }

  /** `calculateTotalScreenTime` is the same per-session truncated sum as
      `calculateTotalMinutes`, taken over every package. */
  lemma {:induction false} ScreenTimeIsSumOfAppMinutes(order: seq<string>, appSessions: map<string, seq<AppSession>>)
    requires forall p :: p in order ==> p in appSessions
    ensures TotalMinutes(Flatten(order, appSessions)) == SumAppMinutes(order, appSessions)
  {
    if order != [] {
      TotalMinutesAppend(appSessions[order[0]], Flatten(order[1..], appSessions));
      ScreenTimeIsSumOfAppMinutes(order[1..], appSessions);
    }
  }

  predicate Distinct(s: seq<string>)
  {
    forall i, j :: 0 <= i < j < |s| ==> s[i] != s[j]
  }

  /** The service: three stores plus the insertion order of the session
      store's keys (a Kotlin `mutableMapOf` iterates in insertion order). */
  class AnalyticsService {
    var sessionOrder: seq<string>
    var appSessions: map<string, seq<AppSession>>
    var appTaps: map<string, seq<AppTap>>
    var interventions: map<string, seq<Intervention>>

    ghost predicate Valid()
      reads this
    {
      && Distinct(sessionOrder)
      && (forall p :: p in appSessions <==> p in sessionOrder)
    }

    predicate IsEmpty()
      reads this
    {
      sessionOrder == [] && appSessions == map[] && appTaps == map[] && interventions == map[]
    }

    constructor ()
      ensures Valid() && IsEmpty()
    {
      sessionOrder, appSessions, appTaps, interventions := [], map[], map[], map[];
    }

    /** `recordAppSession`: one session that starts and ends now, appended
        under its package; nothing else changes. */
    method RecordAppSession(appName: string, packageName: string, now: int)
      requires Valid()
      modifies this
      ensures Valid()
      ensures appSessions == old(appSessions)[packageName :=
                ListOr(old(appSessions), packageName) + [NewAppSession(appName, packageName, now, now)]]
      ensures sessionOrder == if packageName in old(appSessions) then old(sessionOrder)
                              else old(sessionOrder) + [packageName]
      ensures appTaps == old(appTaps) && interventions == old(interventions)
    {
      var session := NewAppSession(appName, packageName, now, now);
      if packageName !in appSessions {
        sessionOrder := sessionOrder + [packageName];
        appSessions := appSessions[packageName := []];
      }
      appSessions := appSessions[packageName := appSessions[packageName] + [session]];
    }

    /** `recordAppTap`: one tap stamped now, appended under its package. */
    method RecordAppTap(appName: string, packageName: string, now: int)
      requires Valid()
      modifies this
      ensures Valid()
      ensures appTaps == old(appTaps)[packageName :=
                ListOr(old(appTaps), packageName) + [NewAppTap(now, appName, packageName)]]
      ensures sessionOrder == old(sessionOrder) && appSessions == old(appSessions)
      ensures interventions == old(interventions)
    {
      var tap := NewAppTap(now, appName, packageName);
      appTaps := appTaps[packageName := ListOr(appTaps, packageName) + [tap]];
    }

    /** `recordIntervention`: one record that starts and ends now, appended
        under the app NAME (not the package). */
    method RecordIntervention(appName: string, interventionType: string, videoDuration: Option<int>,
                              requiredWatchTime: Option<int>, buttonClicked: string, now: int)
      requires Valid()
      modifies this
      ensures Valid()
      ensures interventions == old(interventions)[appName :=
                ListOr(old(interventions), appName) +
                [NewIntervention(now, now, appName, interventionType, videoDuration, requiredWatchTime, buttonClicked)]]
      ensures sessionOrder == old(sessionOrder) && appSessions == old(appSessions)
      ensures appTaps == old(appTaps)
    {
      var iv := NewIntervention(now, now, appName, interventionType, videoDuration, requiredWatchTime, buttonClicked);
      interventions := interventions[appName := ListOr(interventions, appName) + [iv]];
    }

    /** `clearDailyData`: all three stores emptied. */
    method ClearDailyData()
      modifies this
      ensures Valid() && IsEmpty()
    {
      sessionOrder, appSessions, appTaps, interventions := [], map[], map[], map[];
    }

    /** `generateAndSendDailySummary`: one `AppStats` per package with
        sessions (keyed by the resolved app name `appNameOf(package)`), the total
        screen time over all sessions, and then every store cleared. Returns
        the summary handed to `sendDataToServer`. */
    method GenerateAndSendDailySummary(date: string, appNameOf: string -> string) returns (summary: DailySummary)
      requires Valid()
      modifies this
      ensures summary.eventType == DAILY_SUMMARY_TAG && summary.date == date
      ensures summary.appTotals == AppTotals(old(sessionOrder), old(appSessions), old(appTaps),
                                             old(interventions), appNameOf)
      ensures summary.totalScreenTime == SumAppMinutes(old(sessionOrder), old(appSessions))
      ensures Valid() && IsEmpty()
    {
      var appTotals: map<string, AppStats> := map[];
      var i := 0;
      while i < |sessionOrder|
        invariant 0 <= i <= |sessionOrder|
        invariant appTotals == AppTotals(sessionOrder[..i], appSessions, appTaps, interventions, appNameOf)
      {
        var packageName := sessionOrder[i];
        var appName := appNameOf(packageName);
        assert sessionOrder[..i + 1][..i] == sessionOrder[..i];
        appTotals := appTotals[appName := StatsFor(appSessions[packageName], appTaps, interventions,
                                                   packageName, appName)];
        i := i + 1;
      }
      assert sessionOrder[..i] == sessionOrder;
      var totalScreenTime := TotalMinutes(Flatten(sessionOrder, appSessions));
      ScreenTimeIsSumOfAppMinutes(sessionOrder, appSessions);
      summary := DailySummary(DAILY_SUMMARY_TAG, date, totalScreenTime, appTotals);
      ClearDailyData();
    }
  }
}
