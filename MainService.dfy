/** The foreground monitor: once a second it reads the foreground package,
    turns "consciously opened" visits of the three tracked apps into
    sessions, records taps with a per-app cooldown, and starts the overlay
    over Instagram. Each tick is specified by pure functions over
    `MonitorState`; the `MainService` class performs the same updates in
    place. */
module Monitor {
  import opened Lang
  import opened Platform
  import Overlay

  const INSTAGRAM := "com.instagram.android"
  const FACEBOOK := "com.facebook.katana"
  const YOUTUBE := "com.google.android.youtube"
  /** The apps whose sessions and taps are tracked. */
  const TARGET_APPS: set<string> := {INSTAGRAM, FACEBOOK, YOUTUBE}

  /** A tap makes a later visit "conscious" for this long (ms). */
  const TAP_VALIDITY_WINDOW := 5000
  /** Two taps of the same app are recorded at least this far apart (ms). */
  const TAP_COOLDOWN_PERIOD := 3000
  /** The fallback trusts the last detected app if used this recently (ms). */
  const STILL_ACTIVE_WINDOW := 3000

  /** The label under which a tracked package's taps are recorded. */
  function TapLabel(pkg: string): string
  {
    if pkg == INSTAGRAM then "Instagram"
    else if pkg == FACEBOOK then "Facebook"
    else "YouTube"
  }

  /** What a tick hands to the outside world: a session or a tap for the
      analytics service, or a request to start the overlay. */
  datatype Emission =
    | SessionRecorded(appName: string, packageName: string, startTime: int, endTime: int)
    | TapRecorded(appName: string, packageName: string)
    | OverlayStarted

  /** The monitor's fields (the companion's `isMonitoring`, `lastDetectedApp`,
      `appSessionStartTime` and the instance's two tap maps). */
  datatype MonitorState = MonitorState(
    isMonitoring: bool,
    lastDetectedApp: Option<string>,
    appSessionStartTime: int,
    recentlyTappedApps: map<string, int>,
    lastTapRecordedTime: map<string, int>)

  /** A new state and what was emitted on the way, in order. */
  datatype Outcome = Outcome(state: MonitorState, emitted: seq<Emission>)

  const INITIAL_STATE := MonitorState(false, None, 0, map[], map[])

  /** `startMonitoring`: sets the flag (a no-op when it is already set). */
  function StartUpdate(s: MonitorState): MonitorState
  {
    if s.isMonitoring then s else s.(isMonitoring := true)
  }

  /** `onDestroy`: clears the flag, which ends the loop. */
  function DestroyUpdate(s: MonitorState): MonitorState
  {
    s.(isMonitoring := false)
  }

  /** A second start while monitoring changes nothing; the flag is only
      ever cleared by `onDestroy`. */
  lemma StartMonitoringIdempotent(s: MonitorState)
    ensures StartUpdate(s).isMonitoring && !DestroyUpdate(s).isMonitoring
    ensures s.isMonitoring ==> StartUpdate(s) == s
    ensures StartUpdate(StartUpdate(s)) == StartUpdate(s)
    ensures StartUpdate(s).(isMonitoring := s.isMonitoring) == s
  {
  }

  predicate IsTarget(app: Option<string>)
  {
    app.Some? && app.value in TARGET_APPS
  }

  /** `wasRecentlyTapped`: a tap of `app` at most 5000 ms before `now`. */
  predicate WasRecentlyTapped(s: MonitorState, now: int, app: string)
  {
    app in s.recentlyTappedApps && now - s.recentlyTappedApps[app] <= TAP_VALIDITY_WINDOW
  }

  /** The condition under which `recordAppUsage` opens a conscious session. */
  predicate StartsSession(s: MonitorState, now: int, app: string)
  {
    app != "" && Some(app) != s.lastDetectedApp && app in TARGET_APPS && WasRecentlyTapped(s, now, app)
  }

  /** The session of the last detected app, if it is a tracked app with an
      open session, ending now. */
  function EndedSession(s: MonitorState, now: int, appNameOf: string -> string): seq<Emission>
  {
    if IsTarget(s.lastDetectedApp) && s.appSessionStartTime > 0 then
      [SessionRecorded(appNameOf(s.lastDetectedApp.value), s.lastDetectedApp.value, s.appSessionStartTime, now)]
    else []
  }

  /** The cleanup at the end of `recordAppUsage`: drops taps older than the
      validity window. */
  function PurgeExpiredTaps(taps: map<string, int>, now: int): map<string, int>
  {
    map k | k in taps && now - taps[k] <= TAP_VALIDITY_WINDOW :: taps[k]
  }

  /** `recordAppUsage(currentApp)` at time `now`; `appNameOf` is the
      package-manager label lookup (the package name when it fails). */
  function UsageUpdate(s: MonitorState, now: int, currentApp: string, appNameOf: string -> string): Outcome
  {
    var o :=
      if currentApp != "" && Some(currentApp) != s.lastDetectedApp && currentApp in TARGET_APPS then
        if WasRecentlyTapped(s, now, currentApp) then
          Outcome(s.(appSessionStartTime := now, recentlyTappedApps := s.recentlyTappedApps - {currentApp}),
                  EndedSession(s, now, appNameOf))
        else Outcome(s, [])
      else if IsTarget(s.lastDetectedApp) && currentApp !in TARGET_APPS && s.appSessionStartTime > 0 then
        Outcome(s.(appSessionStartTime := 0), EndedSession(s, now, appNameOf))
      else Outcome(s, []);
    o.(state := o.state.(recentlyTappedApps := PurgeExpiredTaps(o.state.recentlyTappedApps, now)))
  }

  /** `lastTapRecordedTime[pkg] ?: 0`. */
  function LastTapTime(s: MonitorState, pkg: string): int
  {
    if pkg in s.lastTapRecordedTime then s.lastTapRecordedTime[pkg] else 0
  }

  /** `record{Instagram,Facebook,YouTube}Tap` for tracked package `pkg`. */
  function TapUpdate(s: MonitorState, now: int, pkg: string): Outcome
  {
    if now - LastTapTime(s, pkg) >= TAP_COOLDOWN_PERIOD then
      Outcome(s.(recentlyTappedApps := s.recentlyTappedApps[pkg := now],
                 lastTapRecordedTime := s.lastTapRecordedTime[pkg := now]),
              [TapRecorded(TapLabel(pkg), pkg)])
    else Outcome(s, [])
  }

  /** The `when` over the tracked packages once `recordAppUsage` has run:
      a tracked package entered from another app records a tap, Instagram
      also starts the overlay unless it is running or was skipped within
      the cooldown, and the package becomes the last detected app.
      `overlayRunning` and `lastSkipTime` are what the overlay service
      reports. */
  function DetectUpdate(s: MonitorState, now: int, currentApp: string, overlayRunning: bool, lastSkipTime: int): Outcome
  {
    var t := if currentApp in TARGET_APPS && s.lastDetectedApp != Some(currentApp)
             then TapUpdate(s, now, currentApp)
             else Outcome(s, []);
    var overlay := if currentApp == INSTAGRAM && !overlayRunning && now - lastSkipTime >= Overlay.COOLDOWN_PERIOD
                   then [OverlayStarted] else [];
    Outcome(t.state.(lastDetectedApp := Some(currentApp)), t.emitted + overlay)
  }

  /** One pass of the loop body with the screen on and `currentApp` read:
      `recordAppUsage` first, then the `when` over the tracked packages. */
  function CycleUpdate(s: MonitorState, now: int, currentApp: string, overlayRunning: bool, lastSkipTime: int,
                       appNameOf: string -> string): Outcome
  {
    var u := UsageUpdate(s, now, currentApp, appNameOf);
    var d := DetectUpdate(u.state, now, currentApp, overlayRunning, lastSkipTime);
    Outcome(d.state, u.emitted + d.emitted)
  }

  /** `getCurrentAppPackage`: the package used most recently in the 5 s
      query; if there is none but an app was detected before, that app is
      kept when it is also the newest entry of the 10 s query and was used
      less than 3000 ms before `now`. An absent query result is an empty
      list. */
  function CurrentAppPackage(shortQuery: seq<UsageStat>, longQuery: seq<UsageStat>,
                             lastDetectedApp: Option<string>, now: int): string
  {
    var top := MaxByLastTimeUsed(UsedStats(shortQuery));
    var currentApp := if top.Some? then top.value.packageName else "";
    if currentApp == "" && lastDetectedApp.Some? && lastDetectedApp.value != "" then
      var recent := MaxByLastTimeUsed(UsedStats(longQuery));
      if recent.Some? && Some(recent.value.packageName) == lastDetectedApp then
        var usage := FindPackage(longQuery, recent.value.packageName);
        if usage.Some? && now - usage.value.lastTimeUsed < STILL_ACTIVE_WINDOW then recent.value.packageName
        else currentApp
      else currentApp
    else currentApp
  }

  /** One iteration of the `while (isMonitoring)` loop. */
  function TickUpdate(s: MonitorState, now: int, screenOn: bool, shortQuery: seq<UsageStat>, longQuery: seq<UsageStat>,
                      overlayRunning: bool, lastSkipTime: int, appNameOf: string -> string): Outcome
  {
    if !s.isMonitoring || !screenOn then Outcome(s, [])
    else CycleUpdate(s, now, CurrentAppPackage(shortQuery, longQuery, s.lastDetectedApp, now),
                     overlayRunning, lastSkipTime, appNameOf)
  }

  // ---------------------------------------------------------------------
  // Package selection

  /** `p` is the package of the first used entry that no other used entry
      is newer than. */
  predicate IsMostRecentlyUsed(stats: seq<UsageStat>, p: string)
  {
    exists i :: 0 <= i < |stats| && IsFirstMostRecentUsed(stats, i) && stats[i].packageName == p
  }

  /** When the 5 s query has a used entry, the foreground package is the
      most recently used one (ties go to the first such entry), unless that
      entry's name is empty. */
  lemma ForegroundIsMostRecentlyUsed(shortQuery: seq<UsageStat>, longQuery: seq<UsageStat>,
                                     lastDetectedApp: Option<string>, now: int)
    requires exists i :: 0 <= i < |shortQuery| && shortQuery[i].lastTimeUsed > 0 && shortQuery[i].packageName != ""
    requires forall i :: 0 <= i < |shortQuery| && shortQuery[i].lastTimeUsed > 0 ==> shortQuery[i].packageName != ""
    ensures IsMostRecentlyUsed(shortQuery, CurrentAppPackage(shortQuery, longQuery, lastDetectedApp, now))
  {
    var j :| 0 <= j < |shortQuery| && shortQuery[j].lastTimeUsed > 0 && shortQuery[j].packageName != "";
    assert shortQuery[j] in UsedStats(shortQuery);
    var i := MaxUsedIsFirstInQuery(shortQuery);
    assert CurrentAppPackage(shortQuery, longQuery, lastDetectedApp, now) == shortQuery[i].packageName;
  }

  /** What the selection can return: nothing, the most recently used
      package of the 5 s query, or, only when that query has no used entry
      or its newest one is nameless, the previously detected app while it
      is the newest entry of the 10 s query and its first row there is less
      than 3000 ms old. */
  lemma ForegroundSources(shortQuery: seq<UsageStat>, longQuery: seq<UsageStat>,
                          lastDetectedApp: Option<string>, now: int)
    ensures var r := CurrentAppPackage(shortQuery, longQuery, lastDetectedApp, now);
            || r == ""
            || IsMostRecentlyUsed(shortQuery, r)
            || (&& (UsedStats(shortQuery) == [] || IsMostRecentlyUsed(shortQuery, ""))
                && lastDetectedApp == Some(r)
                && IsMostRecentlyUsed(longQuery, r)
                && FindPackage(longQuery, r).Some?
                && now - FindPackage(longQuery, r).value.lastTimeUsed < STILL_ACTIVE_WINDOW)
  {
    var r := CurrentAppPackage(shortQuery, longQuery, lastDetectedApp, now);
    var used := UsedStats(shortQuery);
    if used != [] {
      var i := MaxUsedIsFirstInQuery(shortQuery);
      if r != "" && r != shortQuery[i].packageName {
        MostRecentFromLongQuery(longQuery);
      }
    } else {
      MostRecentFromLongQuery(longQuery);
    }
  }

  /** The newest used entry of a query is most recently used in the sense of
      `IsMostRecentlyUsed`. */
  lemma MostRecentFromLongQuery(stats: seq<UsageStat>)
    ensures var recent := MaxByLastTimeUsed(UsedStats(stats));
            recent.Some? ==> IsMostRecentlyUsed(stats, recent.value.packageName)
  {
    if UsedStats(stats) != [] {
      var i := MaxUsedIsFirstInQuery(stats);
    }
  }

  /** The fallback does keep the previously detected app when its
      conditions hold. */
  lemma FallbackKeepsLastDetectedApp(shortQuery: seq<UsageStat>, longQuery: seq<UsageStat>, p: string, now: int)
    requires forall i :: 0 <= i < |shortQuery| ==> shortQuery[i].lastTimeUsed <= 0
    requires p != ""
    requires var recent := MaxByLastTimeUsed(UsedStats(longQuery)); recent.Some? && recent.value.packageName == p
    requires FindPackage(longQuery, p).Some? && now - FindPackage(longQuery, p).value.lastTimeUsed < STILL_ACTIVE_WINDOW
    ensures CurrentAppPackage(shortQuery, longQuery, Some(p), now) == p
  {
  }

  // ---------------------------------------------------------------------
  // Properties of one tick

  /** A tracked app entered from a different app gets a tap exactly when its
      cooldown has run out (a missing entry reads as 0). A recorded tap
      stamps both maps with `now`; a skipped one leaves the cooldown map as
      it was. */
  lemma {:induction false} TapRecordedIffCooldownElapsed(s: MonitorState, now: int, app: string, overlayRunning: bool,
                                                         lastSkipTime: int, appNameOf: string -> string)
    requires app in TARGET_APPS && s.lastDetectedApp != Some(app)
    ensures var r := CycleUpdate(s, now, app, overlayRunning, lastSkipTime, appNameOf);
            var u := UsageUpdate(s, now, app, appNameOf);
            && (TapRecorded(TapLabel(app), app) in r.emitted <==> now - LastTapTime(s, app) >= TAP_COOLDOWN_PERIOD)
            && (now - LastTapTime(s, app) >= TAP_COOLDOWN_PERIOD ==>
                  && r.state.lastTapRecordedTime == s.lastTapRecordedTime[app := now]
                  && r.state.recentlyTappedApps == u.state.recentlyTappedApps[app := now])
            && (now - LastTapTime(s, app) < TAP_COOLDOWN_PERIOD ==>
                  && r.state.lastTapRecordedTime == s.lastTapRecordedTime
                  && r.state.recentlyTappedApps == u.state.recentlyTappedApps)
  {
    var u := UsageUpdate(s, now, app, appNameOf);
    UsageUpdateKeepsTaps(s, now, app, appNameOf);
    var t := TapUpdate(u.state, now, app);
    assert LastTapTime(u.state, app) == LastTapTime(s, app);
    var overlay := if app == INSTAGRAM && !overlayRunning && now - lastSkipTime >= Overlay.COOLDOWN_PERIOD
                   then [OverlayStarted] else [];
    var r := CycleUpdate(s, now, app, overlayRunning, lastSkipTime, appNameOf);
    assert r.emitted == u.emitted + t.emitted + overlay;
    assert r.state.lastTapRecordedTime == t.state.lastTapRecordedTime;
    assert r.state.recentlyTappedApps == t.state.recentlyTappedApps;
    if now - LastTapTime(s, app) >= TAP_COOLDOWN_PERIOD {
      assert r.emitted[|u.emitted|] == TapRecorded(TapLabel(app), app);
    } else {
      assert t.emitted == [];
    }
  }

  /** `recordAppUsage` emits only sessions and leaves the detected app and
      the tap cooldowns alone. */
  lemma UsageUpdateKeepsTaps(s: MonitorState, now: int, app: string, appNameOf: string -> string)
    ensures var u := UsageUpdate(s, now, app, appNameOf);
            && u.state.lastDetectedApp == s.lastDetectedApp
            && u.state.lastTapRecordedTime == s.lastTapRecordedTime
            && forall e :: e in u.emitted ==> e.SessionRecorded?
  {
  }

  /** No tap is attempted on a tick whose package is untracked or is the
      app already detected; every tick leaves the current package as the
      last detected app. */
  lemma NoTapWithoutTransition(s: MonitorState, now: int, app: string, overlayRunning: bool,
                               lastSkipTime: int, appNameOf: string -> string)
    ensures CycleUpdate(s, now, app, overlayRunning, lastSkipTime, appNameOf).state.lastDetectedApp == Some(app)
    ensures app !in TARGET_APPS || s.lastDetectedApp == Some(app) ==>
              var r := CycleUpdate(s, now, app, overlayRunning, lastSkipTime, appNameOf);
              && (forall e :: e in r.emitted ==> !e.TapRecorded?)
              && r.state.lastTapRecordedTime == s.lastTapRecordedTime
  {
    var u := UsageUpdate(s, now, app, appNameOf);
    assert forall e :: e in u.emitted ==> e.SessionRecorded?;
  }

  /** A conscious session can only be opened by a tap recorded on an EARLIER
      tick: the start time moves to a new non-zero value only when
      `StartsSession` holds of the state before the tick, and then it
      becomes `now` and that tap is consumed. */
  lemma SessionStartNeedsEarlierTap(s: MonitorState, now: int, app: string, overlayRunning: bool,
                                    lastSkipTime: int, appNameOf: string -> string)
    ensures var r := CycleUpdate(s, now, app, overlayRunning, lastSkipTime, appNameOf);
            var moved := r.state.appSessionStartTime != s.appSessionStartTime && r.state.appSessionStartTime != 0;
            moved ==> StartsSession(s, now, app)
    ensures StartsSession(s, now, app) ==>
              && CycleUpdate(s, now, app, overlayRunning, lastSkipTime, appNameOf).state.appSessionStartTime == now
              && app !in UsageUpdate(s, now, app, appNameOf).state.recentlyTappedApps
  {
  }

  /** After `recordAppUsage` every remaining tap is at most 5000 ms old; a
      tap exactly 5000 ms old survives and is still usable. Other entries
      keep their times. */
  lemma TapsExpireAfterValidityWindow(s: MonitorState, now: int, app: string, appNameOf: string -> string)
    ensures var m := UsageUpdate(s, now, app, appNameOf).state.recentlyTappedApps;
            && (forall k :: k in m ==> now - m[k] <= TAP_VALIDITY_WINDOW)
            && (forall k :: k in m ==> k in s.recentlyTappedApps && m[k] == s.recentlyTappedApps[k])
            && (forall k :: k in s.recentlyTappedApps && now - s.recentlyTappedApps[k] <= TAP_VALIDITY_WINDOW ==>
                  (k in m <==> !(k == app && StartsSession(s, now, app))))
    ensures app in s.recentlyTappedApps && now - s.recentlyTappedApps[app] == TAP_VALIDITY_WINDOW ==>
              WasRecentlyTapped(s, now, app)
  {
  }

  /** Leaving a tracked app for an untracked package (including the empty
      reading) with an open session records exactly that session, ending
      now, and closes it. */
  lemma LeavingTargetRecordsOneSession(s: MonitorState, now: int, app: string, overlayRunning: bool,
                                       lastSkipTime: int, appNameOf: string -> string)
    requires IsTarget(s.lastDetectedApp) && app !in TARGET_APPS && s.appSessionStartTime > 0
    ensures var r := CycleUpdate(s, now, app, overlayRunning, lastSkipTime, appNameOf);
            var last := s.lastDetectedApp.value;
            && r.emitted == [SessionRecorded(appNameOf(last), last, s.appSessionStartTime, now)]
            && r.state.appSessionStartTime == 0
  {
  }

  /** Switching between tracked apps without a valid tap records nothing and
      keeps the open session's start time. */
  lemma TargetSwitchWithoutTapKeepsSession(s: MonitorState, now: int, app: string, appNameOf: string -> string)
    requires app in TARGET_APPS && IsTarget(s.lastDetectedApp) && s.lastDetectedApp != Some(app)
    requires !WasRecentlyTapped(s, now, app)
    ensures var u := UsageUpdate(s, now, app, appNameOf);
            u.emitted == [] && u.state.appSessionStartTime == s.appSessionStartTime
  {
  }

  /** Staying on the same app opens and closes nothing. */
  lemma StayingChangesNoSession(s: MonitorState, now: int, app: string, appNameOf: string -> string)
    requires s.lastDetectedApp == Some(app)
    ensures var u := UsageUpdate(s, now, app, appNameOf);
            u.emitted == [] && u.state.appSessionStartTime == s.appSessionStartTime
  {
  }

  /** With a clock that does not run backwards, every recorded session has a
      positive start no later than its end, at most one is recorded per
      tick, and the open session never starts in the future. */
  lemma SessionsAreWellOrdered(s: MonitorState, now: int, app: string, overlayRunning: bool,
                               lastSkipTime: int, appNameOf: string -> string)
    requires s.appSessionStartTime <= now
    ensures var r := CycleUpdate(s, now, app, overlayRunning, lastSkipTime, appNameOf);
            && r.state.appSessionStartTime <= now
            && (forall e :: e in r.emitted && e.SessionRecorded? ==> 0 < e.startTime <= e.endTime == now)
            && (forall i, j :: 0 <= i < j < |r.emitted| && r.emitted[i].SessionRecorded? ==> !r.emitted[j].SessionRecorded?)
  {
    var u := UsageUpdate(s, now, app, appNameOf);
    assert |u.emitted| <= 1;
    assert forall e :: e in u.emitted ==> e.SessionRecorded? && 0 < e.startTime <= e.endTime == now;
    var d := DetectUpdate(u.state, now, app, overlayRunning, lastSkipTime);
    DetectRecordsNoSession(u.state, now, app, overlayRunning, lastSkipTime);
    var r := CycleUpdate(s, now, app, overlayRunning, lastSkipTime, appNameOf);
    assert r.emitted == u.emitted + d.emitted;
    forall i, j | 0 <= i < j < |r.emitted| && r.emitted[i].SessionRecorded?
      ensures !r.emitted[j].SessionRecorded?
    {
      assert r.emitted[j] == d.emitted[j - |u.emitted|];
    }
  }

  /** The `when` over the tracked packages records no session and leaves
      the open session's start alone. */
  lemma DetectRecordsNoSession(s: MonitorState, now: int, app: string, overlayRunning: bool, lastSkipTime: int)
    ensures var d := DetectUpdate(s, now, app, overlayRunning, lastSkipTime);
            && d.state.appSessionStartTime == s.appSessionStartTime
            && forall e :: e in d.emitted ==> !e.SessionRecorded?
  {
  }

  /** On an Instagram tick the overlay is started exactly when it is not
      already running and the skip cooldown has passed; on any other tick
      it is never started. */
  lemma OverlayGate(s: MonitorState, now: int, app: string, overlayRunning: bool,
                    lastSkipTime: int, appNameOf: string -> string)
    ensures OverlayStarted in CycleUpdate(s, now, app, overlayRunning, lastSkipTime, appNameOf).emitted
            <==> app == INSTAGRAM && !overlayRunning && now - lastSkipTime >= Overlay.COOLDOWN_PERIOD
  {
    var u := UsageUpdate(s, now, app, appNameOf);
    assert forall e :: e in u.emitted ==> e.SessionRecorded?;
  }

  /** With monitoring off or the screen off, a tick changes nothing. */
  lemma IdleTickChangesNothing(s: MonitorState, now: int, screenOn: bool, shortQuery: seq<UsageStat>,
                               longQuery: seq<UsageStat>, overlayRunning: bool, lastSkipTime: int,
                               appNameOf: string -> string)
    requires !s.isMonitoring || !screenOn
    ensures TickUpdate(s, now, screenOn, shortQuery, longQuery, overlayRunning, lastSkipTime, appNameOf) == Outcome(s, [])
  {
  }

  // ---------------------------------------------------------------------
  // Scenarios over several ticks

  const LAUNCHER := "com.android.launcher"

  /** Opening Instagram from the launcher and staying on it records a tap
      but never opens a session: the tap is recorded after `recordAppUsage`
      on the first tick, and on later ticks Instagram is already the last
      detected app. Leaving a minute later records no session. */
  lemma OpenAndStayRecordsNoSession(t: int, appNameOf: string -> string)
    requires t >= TAP_COOLDOWN_PERIOD
    ensures var s0 := INITIAL_STATE.(isMonitoring := true, lastDetectedApp := Some(LAUNCHER));
            var r1 := CycleUpdate(s0, t, INSTAGRAM, true, 0, appNameOf);
            var r2 := CycleUpdate(r1.state, t + 1000, INSTAGRAM, true, 0, appNameOf);
            var r3 := CycleUpdate(r2.state, t + 60000, LAUNCHER, true, 0, appNameOf);
            && r1.emitted == [TapRecorded("Instagram", INSTAGRAM)]
            && r2.emitted == [] && r3.emitted == []
            && r3.state.appSessionStartTime == 0
  {
    var s0 := INITIAL_STATE.(isMonitoring := true, lastDetectedApp := Some(LAUNCHER));
    var r1 := CycleUpdate(s0, t, INSTAGRAM, true, 0, appNameOf);
    assert r1.state.lastDetectedApp == Some(INSTAGRAM);
    assert r1.state.appSessionStartTime == 0;
    var r2 := CycleUpdate(r1.state, t + 1000, INSTAGRAM, true, 0, appNameOf);
    assert r2.state.appSessionStartTime == 0;
  }

  /** A session opens when a tapped app comes back within the validity
      window: Instagram is tapped at t, the launcher shows at t+1000, and
      Instagram returns at t+2000 (its tap cooldown has not run out, so no
      second tap). Leaving at t+10000 records the session [t+2000, t+10000]. */
  lemma ReturnWithinWindowRecordsSession(t: int, appNameOf: string -> string)
    requires t >= TAP_COOLDOWN_PERIOD
    ensures var s0 := INITIAL_STATE.(isMonitoring := true);
            var r1 := CycleUpdate(s0, t, INSTAGRAM, true, 0, appNameOf);
            var r2 := CycleUpdate(r1.state, t + 1000, LAUNCHER, true, 0, appNameOf);
            var r3 := CycleUpdate(r2.state, t + 2000, INSTAGRAM, true, 0, appNameOf);
            var r4 := CycleUpdate(r3.state, t + 10000, LAUNCHER, true, 0, appNameOf);
            && r1.emitted == [TapRecorded("Instagram", INSTAGRAM)]
            && r2.emitted == [] && r3.emitted == []
            && r3.state.appSessionStartTime == t + 2000
            && r4.emitted == [SessionRecorded(appNameOf(INSTAGRAM), INSTAGRAM, t + 2000, t + 10000)]
  {
    var s0 := INITIAL_STATE.(isMonitoring := true);
    var r1 := CycleUpdate(s0, t, INSTAGRAM, true, 0, appNameOf);
    assert r1.state.recentlyTappedApps == map[INSTAGRAM := t];
    var r2 := CycleUpdate(r1.state, t + 1000, LAUNCHER, true, 0, appNameOf);
    assert r2.state.recentlyTappedApps == map[INSTAGRAM := t];
    assert r2.state.lastTapRecordedTime == map[INSTAGRAM := t];
    var r3 := CycleUpdate(r2.state, t + 2000, INSTAGRAM, true, 0, appNameOf);
    assert StartsSession(r2.state, t + 2000, INSTAGRAM);
  }

  // ---------------------------------------------------------------------
  // The service object

  /** The service and its companion fields. `emitted` is the sequence of
      calls made to the analytics recorders and to the overlay launcher. */
  class MainService {
    const appNameOf: string -> string
    var isMonitoring: bool
    var lastDetectedApp: Option<string>
    var appSessionStartTime: int
    var recentlyTappedApps: map<string, int>
    var lastTapRecordedTime: map<string, int>
    var emitted: seq<Emission>

    function State(): MonitorState
      reads this
    {
      MonitorState(isMonitoring, lastDetectedApp, appSessionStartTime, recentlyTappedApps, lastTapRecordedTime)
    }

    /** A new instance. `lastDetectedApp` and `appSessionStartTime` are
        companion fields: they keep what an earlier instance in the same
        process left (`None` and 0 in a fresh process), and `onDestroy`
        clears only `isMonitoring`. The tap maps belong to the instance. */
    constructor (appNameOf: string -> string, carriedApp: Option<string>, carriedStart: int)
      ensures this.appNameOf == appNameOf
      ensures State() == INITIAL_STATE.(lastDetectedApp := carriedApp, appSessionStartTime := carriedStart)
      ensures emitted == []
    {
      this.appNameOf := appNameOf;
      isMonitoring := false;
      lastDetectedApp := carriedApp;
      appSessionStartTime := carriedStart;
      recentlyTappedApps := map[];
      lastTapRecordedTime := map[];
      emitted := [];
    }

    /** `startMonitoring`. */
    method StartMonitoring()
      modifies this
      ensures State() == StartUpdate(old(State())) && emitted == old(emitted)
    {
      if isMonitoring {
        return;
      }
      isMonitoring := true;
    }

    /** `onDestroy`. */
    method OnDestroy()
      modifies this
      ensures State() == DestroyUpdate(old(State())) && emitted == old(emitted)
    {
      isMonitoring := false;
    }

    /** `recordAppUsage(currentApp)` at time `now`. */
    method RecordAppUsage(now: int, currentApp: string)
      modifies this
      ensures var o := UsageUpdate(old(State()), now, currentApp, appNameOf);
              State() == o.state && emitted == old(emitted) + o.emitted
    {
      if currentApp != "" && Some(currentApp) != lastDetectedApp && currentApp in TARGET_APPS {
        if currentApp in recentlyTappedApps && now - recentlyTappedApps[currentApp] <= TAP_VALIDITY_WINDOW {
          if lastDetectedApp.Some? && lastDetectedApp.value in TARGET_APPS && appSessionStartTime > 0 {
            var last := lastDetectedApp.value;
            emitted := emitted + [SessionRecorded(appNameOf(last), last, appSessionStartTime, now)];
          }
          appSessionStartTime := now;
          recentlyTappedApps := recentlyTappedApps - {currentApp};
        }
      } else if lastDetectedApp.Some? && lastDetectedApp.value in TARGET_APPS && currentApp !in TARGET_APPS {
        if appSessionStartTime > 0 {
          var last := lastDetectedApp.value;
          emitted := emitted + [SessionRecorded(appNameOf(last), last, appSessionStartTime, now)];
          appSessionStartTime := 0;
        }
      }
      recentlyTappedApps := map k | k in recentlyTappedApps && now - recentlyTappedApps[k] <= TAP_VALIDITY_WINDOW
                                  :: recentlyTappedApps[k];
    }

    /** `record{Instagram,Facebook,YouTube}Tap` for tracked package `pkg`. */
    method RecordTap(now: int, pkg: string)
      modifies this
      ensures var o := TapUpdate(old(State()), now, pkg);
              State() == o.state && emitted == old(emitted) + o.emitted
    {
      var lastRecordedTime := if pkg in lastTapRecordedTime then lastTapRecordedTime[pkg] else 0;
      if now - lastRecordedTime >= TAP_COOLDOWN_PERIOD {
        recentlyTappedApps := recentlyTappedApps[pkg := now];
        lastTapRecordedTime := lastTapRecordedTime[pkg := now];
        emitted := emitted + [TapRecorded(TapLabel(pkg), pkg)];
      }
    }

    /** One iteration of the monitoring loop at time `now`. The two usage
        queries (5 s and 10 s windows), the screen state, whether the overlay
        service is running and the overlay's `lastSkipTime` are inputs. The
        three tracked-package branches of the `when` differ only in the
        package and label, and Instagram's also starts the overlay. */
    method Tick(now: int, screenOn: bool, shortQuery: seq<UsageStat>, longQuery: seq<UsageStat>,
                overlayRunning: bool, lastSkipTime: int)
      modifies this
      ensures var o := TickUpdate(old(State()), now, screenOn, shortQuery, longQuery, overlayRunning, lastSkipTime, appNameOf);
              State() == o.state && emitted == old(emitted) + o.emitted
    {
      if !isMonitoring || !screenOn {
        return;
      }
      var currentApp := CurrentAppPackage(shortQuery, longQuery, lastDetectedApp, now);
      ghost var u := UsageUpdate(State(), now, currentApp, appNameOf);
      ghost var e0 := emitted;
      RecordAppUsage(now, currentApp);
      ghost var e1 := emitted;
      assert e1 == e0 + u.emitted;
      DetectForeground(now, currentApp, overlayRunning, lastSkipTime);
      ghost var d := DetectUpdate(u.state, now, currentApp, overlayRunning, lastSkipTime);
      assert State() == d.state && emitted == e1 + d.emitted;
    }

    /** The `when` over the tracked packages, after `recordAppUsage`. */
    method DetectForeground(now: int, currentApp: string, overlayRunning: bool, lastSkipTime: int)
      modifies this
      ensures var o := DetectUpdate(old(State()), now, currentApp, overlayRunning, lastSkipTime);
              State() == o.state && emitted == old(emitted) + o.emitted
    {
      if currentApp in TARGET_APPS {
        if lastDetectedApp != Some(currentApp) {
          RecordTap(now, currentApp);
          lastDetectedApp := Some(currentApp);
        }
        if currentApp == INSTAGRAM && !overlayRunning && now - lastSkipTime >= Overlay.COOLDOWN_PERIOD {
          emitted := emitted + [OverlayStarted];
        }
      } else if lastDetectedApp != Some(currentApp) {
        lastDetectedApp := Some(currentApp);
      }
    }
  }
}
