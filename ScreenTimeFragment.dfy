/** The session list of the screen-time screen: foreground/background events
    of the tracked apps are paired into sessions, newest first, and the
    duration text of the recent-sessions panel. The event query is an input;
    date formatting and the views are not modelled. */
module ScreenTimeFragment {
  import opened Lang
  import opened Platform
  import opened Sorting

  /** `appNames`: the tracked packages and their labels. */
  const APP_NAMES: map<string, string> := map[
    "com.instagram.android" := "Instagram",
    "com.facebook.katana" := "Facebook",
    "com.google.android.youtube" := "YouTube"
  ]

  /** One listed session. The source keeps its start and a formatted line
      "label: start - end (Mm Ss)"; the parts of that line are kept here. */
  datatype SessionData = SessionData(startTime: int, appLabel: string, sessionEnd: int, minutes: int, seconds: int)

  /** The sort key of the list. */
  function StartTime(s: SessionData): int { s.startTime }

  /** A foreground event of a tracked package: it (re)starts the pending session. */
  predicate IsTrackedForeground(e: UsageEvent)
  {
    e.eventType == MoveToForeground && e.packageName in APP_NAMES
  }

  /** The session a background event closes: the duration is split into
      whole minutes and the remaining whole seconds, both truncated. */
  function SessionFor(pkg: string, start: int, end: int): (s: SessionData)
    ensures s.startTime == start && s.sessionEnd == end
    ensures end - start >= 0 ==>
              && s.minutes >= 0 && 0 <= s.seconds < 60
              && s.minutes * 60000 + s.seconds * 1000 <= end - start < s.minutes * 60000 + s.seconds * 1000 + 1000
  {
    var durationMs := end - start;
    var appLabel := if pkg in APP_NAMES then APP_NAMES[pkg] else pkg;
    SessionData(start, appLabel, end, TruncDiv(durationMs, 60000), TruncDiv(TruncRem(durationMs, 60000), 1000))
  }

  /** The loop's state: the pending app and its start, and the sessions so far. */
  datatype Pairing = Pairing(currentApp: Option<string>, sessionStart: int, sessions: seq<SessionData>)

  /** One pass of the event loop. */
  function Step(p: Pairing, e: UsageEvent): Pairing
  {
    if IsTrackedForeground(e) then Pairing(Some(e.packageName), e.timeStamp, p.sessions)
    else if e.eventType == MoveToBackground && p.currentApp == Some(e.packageName) then
      Pairing(p.currentApp, p.sessionStart, p.sessions + [SessionFor(e.packageName, p.sessionStart, e.timeStamp)])
    else p
  }

  /** The loop's state after the events `events`, from `currentApp = null`. */
  function Pair(events: seq<UsageEvent>): Pairing
  {
    if events == [] then Pairing(None, 0, [])
    else Step(Pair(events[..|events| - 1]), events[|events| - 1])
  }

  /** Index of the last foreground event of a tracked package, if any. */
  function LastTrackedForeground(events: seq<UsageEvent>): (r: Option<nat>)
    ensures r.Some? ==> r.value < |events| && IsTrackedForeground(events[r.value])
                        && forall k :: r.value < k < |events| ==> !IsTrackedForeground(events[k])
    ensures r.None? ==> forall k :: 0 <= k < |events| ==> !IsTrackedForeground(events[k])
  {
    if events == [] then None
    else if IsTrackedForeground(events[|events| - 1]) then Some(|events| - 1)
    else LastTrackedForeground(events[..|events| - 1])
  }

  /** The sessions described event by event, without the loop's state: a
      background event closes a session exactly when the last tracked
      foreground event before it is of the same package, and that session
      runs from that foreground event to it. */
  function ReferenceSessions(events: seq<UsageEvent>): seq<SessionData>
  {
    if events == [] then []
    else
      var e := events[|events| - 1];
      var before := events[..|events| - 1];
      ReferenceSessions(before)
        + match LastTrackedForeground(before)
          case Some(j) =>
            if e.eventType == MoveToBackground && events[j].packageName == e.packageName
            then [SessionFor(e.packageName, events[j].timeStamp, e.timeStamp)] else []
          case None => []
  }

  /** The pending app is the one of the last tracked foreground event, with
      its time; before any, there is none. */
  lemma {:induction false} PairTracksLastForeground(events: seq<UsageEvent>)
    ensures match LastTrackedForeground(events)
            case Some(j) => Pair(events).currentApp == Some(events[j].packageName)
                            && Pair(events).sessionStart == events[j].timeStamp
            case None => Pair(events).currentApp == None
  {
    if events != [] {
      var before := events[..|events| - 1];
      PairTracksLastForeground(before);
      match LastTrackedForeground(before)
      case Some(j) => assert events[j] == before[j];
      case None =>
    }
  }

  /** The loop emits exactly the reference sessions, in event order. */
  lemma {:induction false} PairMatchesReference(events: seq<UsageEvent>)
    ensures Pair(events).sessions == ReferenceSessions(events)
  {
    if events != [] {
      var before := events[..|events| - 1];
      PairMatchesReference(before);
      PairTracksLastForeground(before);
      match LastTrackedForeground(before)
      case Some(j) => assert events[j] == before[j];
      case None =>
    }
  }

  /** Each event closes at most one session, and a list without a tracked
      foreground event has none. */
  lemma {:induction false} SessionsAtMostEvents(events: seq<UsageEvent>)
    ensures |Pair(events).sessions| <= |events|
    ensures LastTrackedForeground(events).None? ==> Pair(events).sessions == []
  {
    if events != [] {
      var before := events[..|events| - 1];
      SessionsAtMostEvents(before);
      PairTracksLastForeground(before);
      if LastTrackedForeground(events).None? {
        assert LastTrackedForeground(before).None?;
      }
    }
  }

  /** The pending app is not cleared: a second background event of the same
      app closes a second session with the same start. */
  lemma RepeatedBackgroundRepeatsSession(t0: int, t1: int, t2: int)
    ensures var pkg := "com.instagram.android";
      Pair([UsageEvent(MoveToForeground, pkg, t0), UsageEvent(MoveToBackground, pkg, t1),
            UsageEvent(MoveToBackground, pkg, t2)]).sessions
        == [SessionFor(pkg, t0, t1), SessionFor(pkg, t0, t2)]
  {
    var pkg := "com.instagram.android";
    var e0, e1, e2 := UsageEvent(MoveToForeground, pkg, t0), UsageEvent(MoveToBackground, pkg, t1),
                      UsageEvent(MoveToBackground, pkg, t2);
    assert [e0, e1, e2][..2] == [e0, e1];
    assert [e0, e1][..1] == [e0];
    assert [e0][..0] == [];
    assert pkg in APP_NAMES;
    assert Pair([e0]) == Pairing(Some(pkg), t0, []);
    assert Pair([e0, e1]) == Pairing(Some(pkg), t0, [SessionFor(pkg, t0, t1)]);
  }

  /** `displayAppSessions`, given the events of `queryEvents(start, end)`:
      the sessions are collected in event order and then sorted in place by
      start time, newest first. */
  method DisplayAppSessions(events: seq<UsageEvent>) returns (sessions: seq<SessionData>)
    ensures sessions == SortDesc(ReferenceSessions(events), StartTime)
    ensures SortedDesc(sessions, StartTime)
    ensures multiset(sessions) == multiset(ReferenceSessions(events))
  {
    var currentApp: Option<string> := None;
    var sessionStart := 0;
    sessions := [];
    var i := 0;
    while i < |events|
      invariant 0 <= i <= |events|
      invariant Pair(events[..i]) == Pairing(currentApp, sessionStart, sessions)
    {
      var event := events[i];
      assert events[..i + 1][..i] == events[..i];
      if event.eventType == MoveToForeground && event.packageName in APP_NAMES {
        currentApp := Some(event.packageName);
        sessionStart := event.timeStamp;
      } else if event.eventType == MoveToBackground && currentApp == Some(event.packageName) {
        var sessionEnd := event.timeStamp;
        var durationMs := sessionEnd - sessionStart;
        var minutes := TruncDiv(durationMs, 60000);
        var seconds := TruncDiv(TruncRem(durationMs, 60000), 1000);
        var appLabel := if event.packageName in APP_NAMES then APP_NAMES[event.packageName] else event.packageName;
        sessions := sessions + [SessionData(sessionStart, appLabel, sessionEnd, minutes, seconds)];
      }
      i := i + 1;
    }
    assert events[..i] == events;
    PairMatchesReference(events);
    SortDescCorrect(sessions, StartTime);
    sessions := SortDesc(sessions, StartTime);
  }

  /** The duration text of the recent-sessions panel, for a whole number of
      seconds. */
  function DurationText(totalSeconds: int): string
  {
    if totalSeconds < 60 then IntToString(totalSeconds) + "s"
    else if totalSeconds < 3600 then
      var minutes: nat := totalSeconds / 60;
      var seconds: nat := totalSeconds % 60;
      if seconds == 0 then NatToString(minutes) + "m" else NatToString(minutes) + "m " + NatToString(seconds) + "s"
    else
      var hours: nat := totalSeconds / 3600;
      var minutes: nat := (totalSeconds % 3600) / 60;
      if minutes == 0 then NatToString(hours) + "h" else NatToString(hours) + "h " + NatToString(minutes) + "m"
  }

  /** Under a minute the text is the seconds. */
  lemma DurationTextSeconds(t: nat)
    requires t < 60
    ensures DurationText(t) == NatToString(t) + "s"
  {
  }

  /** Under an hour the text gives the minutes and any remaining seconds,
      which add up to the value. */
  lemma DurationTextMinutes(t: nat)
    requires 60 <= t < 3600
    ensures exists m: nat, s: nat :: 1 <= m < 60 && s < 60 && m * 60 + s == t
              && DurationText(t) == NatToString(m) + "m" + (if s == 0 then "" else " " + NatToString(s) + "s")
  {
    var m: nat, s: nat := t / 60, t % 60;
    assert m * 60 + s == t;
    var secondsText := NatToString(s);
    assert 1 <= m < 60 && s < 60 && m * 60 + s == t
           && DurationText(t) == NatToString(m) + "m" + (if s == 0 then "" else " " + NatToString(s) + "s");
  }

  /** From an hour on the text gives the hours and any remaining minutes;
      the seconds are dropped. */
  lemma DurationTextHours(t: nat)
    requires 3600 <= t
    ensures exists h: nat, m: nat :: 1 <= h && m < 60 && h * 3600 + m * 60 <= t < h * 3600 + m * 60 + 60
              && DurationText(t) == NatToString(h) + "h" + (if m == 0 then "" else " " + NatToString(m) + "m")
  {
    var h: nat, r: nat := t / 3600, t % 3600;
    assert h * 3600 + r == t && r < 3600;
    var m: nat, s: nat := r / 60, r % 60;
    assert m * 60 + s == r && m < 60 && s < 60;
    var minutesText := NatToString(m);
    assert 1 <= h && m < 60 && h * 3600 + m * 60 <= t < h * 3600 + m * 60 + 60
           && DurationText(t) == NatToString(h) + "h" + (if m == 0 then "" else " " + NatToString(m) + "m");
  }
}
