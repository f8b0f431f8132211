/** The study screen: the user picks a start and an end (date and time), and
    the sessions and interventions whose start lies in that range are sent
    to the server in one batch; a preview lists what is stored. The stored
    records (`getAllSessions`, `getAllInterventions`), whether the analytics
    service runs, and the network's answer are inputs. Dates are days since
    the epoch, times minutes of the day, instants milliseconds in UTC. */
module StudyInfo {
  import opened Lang
  import opened Events
  import opened Analytics
  import opened Sync

  const MILLIS_PER_DAY := 24 * 60 * 60 * 1000
  const MINUTES_PER_DAY := 24 * 60

  /** `ZonedDateTime.of(date, time, zone)` as an instant. */
  function DateTime(date: int, minuteOfDay: int): int
  {
    date * MILLIS_PER_DAY + minuteOfDay * 60000
  }

  /** Instants compare as (date, time) pairs do. */
  lemma DateTimeOrder(d1: int, t1: int, d2: int, t2: int)
    requires 0 <= t1 < MINUTES_PER_DAY && 0 <= t2 < MINUTES_PER_DAY
    ensures DateTime(d1, t1) > DateTime(d2, t2) <==> d1 > d2 || (d1 == d2 && t1 > t2)
  {
    if d1 > d2 {
      assert (d1 - d2) * MILLIS_PER_DAY >= MILLIS_PER_DAY;
    } else if d1 < d2 {
      assert (d2 - d1) * MILLIS_PER_DAY >= MILLIS_PER_DAY;
    }
  }

  /** `!t.isBefore(start) && !t.isAfter(end)`: both ends included. */
  predicate InRange(t: int, start: int, end: int)
  {
    start <= t <= end
  }

  /** The sessions starting in the range, in stored order, as sent. */
  function SessionsInRange(sessions: seq<AppSession>, start: int, end: int): (r: seq<AnalyticsData>)
    ensures |r| <= |sessions|
    ensures forall i :: 0 <= i < |r| ==> r[i].SessionEvent?
  {
    if sessions == [] then []
    else
      var s := sessions[|sessions| - 1];
      SessionsInRange(sessions[..|sessions| - 1], start, end)
        + (if InRange(s.sessionStart, start, end) then [SessionEvent(s)] else [])
  }

  /** The interventions starting in the range, in stored order, as sent. */
  function InterventionsInRange(ivs: seq<Intervention>, start: int, end: int): (r: seq<AnalyticsData>)
    ensures |r| <= |ivs|
    ensures forall i :: 0 <= i < |r| ==> r[i].InterventionEvent?
  {
    if ivs == [] then []
    else
      var iv := ivs[|ivs| - 1];
      InterventionsInRange(ivs[..|ivs| - 1], start, end)
        + (if InRange(iv.interventionStart, start, end) then [InterventionEvent(iv)] else [])
  }

  /** A session is sent exactly when it is stored and starts in the range,
      both ends included. */
  lemma {:induction false} SessionsInRangeExactly(sessions: seq<AppSession>, start: int, end: int)
    ensures forall d :: d in SessionsInRange(sessions, start, end) <==>
              d.SessionEvent? && d.session in sessions && InRange(d.session.sessionStart, start, end)
  {
    if sessions != [] {
      var s := sessions[|sessions| - 1];
      var init := sessions[..|sessions| - 1];
      SessionsInRangeExactly(init, start, end);
      assert sessions == init + [s];
      assert forall x :: x in sessions <==> x in init || x == s;
    }
  }

  /** An intervention is sent exactly when it is stored and starts in the
      range, both ends included. */
  lemma {:induction false} InterventionsInRangeExactly(ivs: seq<Intervention>, start: int, end: int)
    ensures forall d :: d in InterventionsInRange(ivs, start, end) <==>
              d.InterventionEvent? && d.intervention in ivs && InRange(d.intervention.interventionStart, start, end)
  {
    if ivs != [] {
      var iv := ivs[|ivs| - 1];
      var init := ivs[..|ivs| - 1];
      InterventionsInRangeExactly(init, start, end);
      assert ivs == init + [iv];
      assert forall x :: x in ivs <==> x in init || x == iv;
    }
  }

  /** One more stored session extends the filtered sessions by it when it is in range. */
  lemma SessionsInRangeStep(sessions: seq<AppSession>, i: nat, start: int, end: int)
    requires i < |sessions|
    ensures SessionsInRange(sessions[..i + 1], start, end)
         == SessionsInRange(sessions[..i], start, end)
            + (if InRange(sessions[i].sessionStart, start, end) then [SessionEvent(sessions[i])] else [])
  {
    assert sessions[..i + 1][..i] == sessions[..i];
  }

  /** One more stored intervention extends the filtered interventions by it when it is in range. */
  lemma InterventionsInRangeStep(ivs: seq<Intervention>, j: nat, start: int, end: int)
    requires j < |ivs|
    ensures InterventionsInRange(ivs[..j + 1], start, end)
         == InterventionsInRange(ivs[..j], start, end)
            + (if InRange(ivs[j].interventionStart, start, end) then [InterventionEvent(ivs[j])] else [])
  {
    assert ivs[..j + 1][..j] == ivs[..j];
  }

  /** `getFilteredAnalyticsData`: the matching sessions, then the matching
      interventions. */
  method GetFilteredAnalyticsData(start: int, end: int, allSessions: seq<AppSession>, allInterventions: seq<Intervention>)
    returns (filteredData: seq<AnalyticsData>)
    ensures filteredData == SessionsInRange(allSessions, start, end) + InterventionsInRange(allInterventions, start, end)
  {
    filteredData := [];
    var i := 0;
    while i < |allSessions|
      invariant 0 <= i <= |allSessions|
      invariant filteredData == SessionsInRange(allSessions[..i], start, end)
    {
      SessionsInRangeStep(allSessions, i, start, end);
      var session := allSessions[i];
      if !(session.sessionStart < start) && !(session.sessionStart > end) {
        filteredData := filteredData + [SessionEvent(session)];
      }
      i := i + 1;
    }
    assert allSessions[..i] == allSessions;
    ghost var sessionsPart := filteredData;
    var j := 0;
    while j < |allInterventions|
      invariant 0 <= j <= |allInterventions|
      invariant filteredData == sessionsPart + InterventionsInRange(allInterventions[..j], start, end)
    {
      InterventionsInRangeStep(allInterventions, j, start, end);
      var intervention := allInterventions[j];
      if !(intervention.interventionStart < start) && !(intervention.interventionStart > end) {
        filteredData := filteredData + [InterventionEvent(intervention)];
      }
      j := j + 1;
    }
    assert allInterventions[..j] == allInterventions;
  }

  /** The batch holds exactly the sessions and interventions that start in
      the range, sessions first, and never a tap. */
  lemma FilteredDataContents(start: int, end: int, sessions: seq<AppSession>, ivs: seq<Intervention>)
    ensures var f := SessionsInRange(sessions, start, end) + InterventionsInRange(ivs, start, end);
      && (forall i :: 0 <= i < |f| ==>
            && (f[i].SessionEvent? || f[i].InterventionEvent?)
            && (f[i].SessionEvent? <==> i < |SessionsInRange(sessions, start, end)|))
      && (forall s :: SessionEvent(s) in f <==> s in sessions && InRange(s.sessionStart, start, end))
      && (forall iv :: InterventionEvent(iv) in f <==> iv in ivs && InRange(iv.interventionStart, start, end))
  {
    SessionsInRangeExactly(sessions, start, end);
    InterventionsInRangeExactly(ivs, start, end);
    var a := SessionsInRange(sessions, start, end);
    var b := InterventionsInRange(ivs, start, end);
    var f: seq<AnalyticsData> := a + b;
    forall i | 0 <= i < |f|
      ensures f[i].SessionEvent? || f[i].InterventionEvent?
      ensures f[i].SessionEvent? <==> i < |a|
    {
      if i >= |a| {
        assert f[i] == b[i - |a|];
      }
    }
  }

  /** When the range covers every stored start, the batch is everything the
      preview counts. */
  lemma {:induction false} WholeRangeSendsEverything(start: int, end: int, sessions: seq<AppSession>, ivs: seq<Intervention>)
    requires forall i :: 0 <= i < |sessions| ==> InRange(sessions[i].sessionStart, start, end)
    requires forall i :: 0 <= i < |ivs| ==> InRange(ivs[i].interventionStart, start, end)
    ensures |SessionsInRange(sessions, start, end) + InterventionsInRange(ivs, start, end)| == TotalItems(sessions, ivs)
  {
    SessionsAllInRange(start, end, sessions);
    InterventionsAllInRange(start, end, ivs);
  }

  lemma {:induction false} SessionsAllInRange(start: int, end: int, sessions: seq<AppSession>)
    requires forall i :: 0 <= i < |sessions| ==> InRange(sessions[i].sessionStart, start, end)
    ensures |SessionsInRange(sessions, start, end)| == |sessions|
  {
    if sessions != [] {
      SessionsAllInRange(start, end, sessions[..|sessions| - 1]);
    }
  }

  lemma {:induction false} InterventionsAllInRange(start: int, end: int, ivs: seq<Intervention>)
    requires forall i :: 0 <= i < |ivs| ==> InRange(ivs[i].interventionStart, start, end)
    ensures |InterventionsInRange(ivs, start, end)| == |ivs|
  {
    if ivs != [] {
      InterventionsAllInRange(start, end, ivs[..|ivs| - 1]);
    }
  }

  /** The preview's "total items to send". */
  function TotalItems(sessions: seq<AppSession>, ivs: seq<Intervention>): nat
  {
    |sessions| + |ivs|
  }

  /** `Duration.between(start, end).seconds`: whole seconds rounded down
      (Dafny's `/` with a positive divisor rounds down, as `Duration` does). */
  function DurationSeconds(start: int, end: int): int
  {
    (end - start) / 1000
  }

  /** `Duration.between(start, end).toMinutes()`. */
  function DurationMinutes(start: int, end: int): int
  {
    TruncDiv(DurationSeconds(start, end), 60)
  }

  /** For a session that does not run backwards the two ways the app counts
      whole minutes agree: via whole seconds here, from the milliseconds in
      the daily summary. */
  lemma DurationMinutesAgree(start: int, end: int)
    requires start <= end
    ensures DurationMinutes(start, end) == MinutesBetween(start, end)
  {
    var d := end - start;
    var k := d / 1000;
    var m := DurationMinutes(start, end);
    assert k * 1000 <= d < k * 1000 + 1000;
    assert m * 60 <= k < m * 60 + 60;
    assert m * 60000 <= k * 1000;
    assert k * 1000 + 1000 <= m * 60000 + 60000;
    var q := MinutesBetween(start, end);
    assert q * 60000 <= d < q * 60000 + 60000;
  }

  /** The preview's per-app total: each of the app's sessions' whole minutes, summed. */
  function AppTotalMinutes(sessions: seq<AppSession>, appName: string): int
  {
    if sessions == [] then 0
    else
      (if sessions[0].appName == appName then DurationMinutes(sessions[0].sessionStart, sessions[0].sessionEnd) else 0)
        + AppTotalMinutes(sessions[1..], appName)
  }

  /** The sessions of one app (one group of `groupBy { it.appName }`). */
  function SessionsOfApp(sessions: seq<AppSession>, appName: string): seq<AppSession>
  {
    if sessions == [] then []
    else (if sessions[0].appName == appName then [sessions[0]] else []) + SessionsOfApp(sessions[1..], appName)
  }

  /** For sessions that do not run backwards, the preview's per-app total is
      the daily summary's minute total over that app's sessions. */
  lemma {:induction false} AppTotalMatchesSummary(sessions: seq<AppSession>, appName: string)
    requires Forward(sessions)
    ensures AppTotalMinutes(sessions, appName) == TotalMinutes(SessionsOfApp(sessions, appName))
  {
    if sessions != [] {
      assert Forward(sessions[1..]) by {
        forall i | 0 <= i < |sessions[1..]| ensures sessions[1..][i].sessionStart <= sessions[1..][i].sessionEnd {
          assert sessions[1..][i] == sessions[i + 1];
        }
      }
      AppTotalMatchesSummary(sessions[1..], appName);
      var s := sessions[0];
      if s.appName == appName {
        DurationMinutesAgree(s.sessionStart, s.sessionEnd);
        assert SessionsOfApp(sessions, appName) == [s] + SessionsOfApp(sessions[1..], appName);
        TotalMinutesAppend([s], SessionsOfApp(sessions[1..], appName));
        assert [s][1..] == [];
        assert TotalMinutes([s]) == MinutesBetween(s.sessionStart, s.sessionEnd);
        assert AppTotalMinutes(sessions, appName) == DurationMinutes(s.sessionStart, s.sessionEnd) + AppTotalMinutes(sessions[1..], appName);
      } else {
        assert SessionsOfApp(sessions, appName) == SessionsOfApp(sessions[1..], appName);
      }
    }
  }

  /** The duration shown for each session in the preview. */
  function DurationString(start: int, end: int): string
  {
    var secs := DurationSeconds(start, end);
    var hours := TruncDiv(secs, 3600);
    var minutes := TruncRem(TruncDiv(secs, 60), 60);
    var seconds := TruncRem(secs, 60);
    if hours > 0 then IntToString(hours) + "h " + IntToString(minutes) + "m " + IntToString(seconds) + "s"
    else if minutes > 0 then IntToString(minutes) + "m " + IntToString(seconds) + "s"
    else IntToString(seconds) + "s"
  }

  /** A forward duration is shown as hours, minutes and seconds that add up
      to its whole seconds, with zero leading parts left out; the minutes and
      seconds are always shown once a larger unit is. */
  lemma DurationStringShowsParts(start: int, end: int)
    requires start <= end
    ensures exists h: nat, m: nat, s: nat ::
              && h * 3600 + m * 60 + s == DurationSeconds(start, end) && m < 60 && s < 60
              && DurationString(start, end) ==
                   (if h > 0 then NatToString(h) + "h " + NatToString(m) + "m " + NatToString(s) + "s"
                    else if m > 0 then NatToString(m) + "m " + NatToString(s) + "s"
                    else NatToString(s) + "s")
  {
    var secs: nat := DurationSeconds(start, end);
    SecondsSplit(secs);
    var h: nat, m: nat, sec: nat := TruncDiv(secs, 3600), TruncRem(TruncDiv(secs, 60), 60), TruncRem(secs, 60);
    var hoursText, minutesText, secondsText := NatToString(h), NatToString(m), NatToString(sec);
    assert h * 3600 + m * 60 + sec == secs && m < 60 && sec < 60
           && DurationString(start, end) ==
                (if h > 0 then NatToString(h) + "h " + NatToString(m) + "m " + NatToString(sec) + "s"
                 else if m > 0 then NatToString(m) + "m " + NatToString(sec) + "s"
                 else NatToString(sec) + "s");
  }

  /** The hours, the minutes of the hour and the seconds of the minute add
      up to the whole seconds. */
  lemma SecondsSplit(secs: nat)
    ensures TruncDiv(secs, 3600) * 3600 + TruncRem(TruncDiv(secs, 60), 60) * 60 + TruncRem(secs, 60) == secs
  {
    var h, mins := secs / 3600, secs / 60;
    var a := mins / 60;
    assert mins * 60 <= secs < mins * 60 + 60;
    assert a * 60 <= mins < a * 60 + 60;
    assert a * 3600 <= secs < a * 3600 + 3600;
    assert h * 3600 <= secs < h * 3600 + 3600;
    assert a == h;
    assert mins == h * 60 + TruncRem(mins, 60);
  }

  /** What pressing "send" led to. */
  datatype SendOutcome =
    | MissingBounds      // a date or a time is not picked
    | StartAfterEnd      // the start is strictly after the end
    | ServiceNotRunning  // no analytics service instance
    | NoData             // nothing starts in the range
    | Sent(items: nat, success: bool)

  /** The picked bounds and the send button. */
  class StudyInfoFragment {
    var startDate: Option<int>
    var startTime: Option<int>
    var endDate: Option<int>
    var endTime: Option<int>
    var sendEnabled: bool

    /** Picked times are valid times of day. */
    ghost predicate Valid()
      reads this
    {
      && (startTime.Some? ==> 0 <= startTime.value < MINUTES_PER_DAY)
      && (endTime.Some? ==> 0 <= endTime.value < MINUTES_PER_DAY)
    }

    /** Nothing picked; the button keeps whatever state the layout gives it. */
    constructor (layoutEnabled: bool)
      ensures Valid()
      ensures startDate.None? && startTime.None? && endDate.None? && endTime.None?
      ensures sendEnabled == layoutEnabled
    {
      startDate, startTime, endDate, endTime := None, None, None, None;
      sendEnabled := layoutEnabled;
    }

    /** `updateSendButtonState`'s rule. */
    predicate CanSend()
      reads this
    {
      startDate.Some? && startTime.Some? && endDate.Some? && endTime.Some?
    }

    /** `getStartDateTime`. */
    function GetStartDateTime(): (r: Option<int>)
      reads this
      ensures r.Some? <==> startDate.Some? && startTime.Some?
    {
      if startDate.Some? && startTime.Some? then Some(DateTime(startDate.value, startTime.value)) else None
    }

    /** `getEndDateTime`. */
    function GetEndDateTime(): (r: Option<int>)
      reads this
      ensures r.Some? <==> endDate.Some? && endTime.Some?
    {
      if endDate.Some? && endTime.Some? then Some(DateTime(endDate.value, endTime.value)) else None
    }

    /** With valid picked times, the start-after-end check of
        `sendBatchData` compares the picked dates first and the picked
        times only on the same date. */
    lemma StartAfterEndByPicks()
      requires Valid() && GetStartDateTime().Some? && GetEndDateTime().Some?
      ensures GetStartDateTime().value > GetEndDateTime().value <==>
                startDate.value > endDate.value
                || (startDate.value == endDate.value && startTime.value > endTime.value)
    {
      DateTimeOrder(startDate.value, startTime.value, endDate.value, endTime.value);
    }

    method UpdateSendButtonState()
      modifies this
      ensures sendEnabled == CanSend()
      ensures startDate == old(startDate) && startTime == old(startTime)
      ensures endDate == old(endDate) && endTime == old(endTime)
    {
      sendEnabled := startDate.Some? && startTime.Some? && endDate.Some? && endTime.Some?;
    }

    /** The start-date picker's callback (`date` as days since the epoch). */
    method PickStartDate(date: int)
      requires Valid()
      modifies this
      ensures Valid() && startDate == Some(date) && sendEnabled == CanSend()
      ensures startTime == old(startTime) && endDate == old(endDate) && endTime == old(endTime)
    {
      startDate := Some(date);
      UpdateSendButtonState();
    }

    /** The start-time picker's callback (`LocalTime.of(hour, minute)`). */
    method PickStartTime(hour: int, minute: int)
      requires Valid()
      requires 0 <= hour < 24 && 0 <= minute < 60
      modifies this
      ensures Valid() && startTime == Some(hour * 60 + minute) && sendEnabled == CanSend()
      ensures startDate == old(startDate) && endDate == old(endDate) && endTime == old(endTime)
    {
      startTime := Some(hour * 60 + minute);
      UpdateSendButtonState();
    }

    method PickEndDate(date: int)
      requires Valid()
      modifies this
      ensures Valid() && endDate == Some(date) && sendEnabled == CanSend()
      ensures startDate == old(startDate) && startTime == old(startTime) && endTime == old(endTime)
    {
      endDate := Some(date);
      UpdateSendButtonState();
    }

    method PickEndTime(hour: int, minute: int)
      requires Valid()
      requires 0 <= hour < 24 && 0 <= minute < 60
      modifies this
      ensures Valid() && endTime == Some(hour * 60 + minute) && sendEnabled == CanSend()
      ensures startDate == old(startDate) && startTime == old(startTime) && endDate == old(endDate)
    {
      endTime := Some(hour * 60 + minute);
      UpdateSendButtonState();
    }

    /** `sendBatchData`, with its coroutine run to completion: the bounds are
        checked, the range is filtered, and a non-empty batch goes out as one
        request through `sync`. */
    method SendBatchData(sync: DataSyncService, serviceRunning: bool, allSessions: seq<AppSession>,
                         allInterventions: seq<Intervention>, networkAvailable: bool, attempt: Attempt)
      returns (outcome: SendOutcome)
      modifies this, sync
      ensures startDate == old(startDate) && startTime == old(startTime)
      ensures endDate == old(endDate) && endTime == old(endTime)
      ensures old(GetStartDateTime()).None? || old(GetEndDateTime()).None? ==>
                outcome == MissingBounds && sendEnabled == old(sendEnabled) && sync.offlineQueue == old(sync.offlineQueue)
      ensures old(GetStartDateTime()).Some? && old(GetEndDateTime()).Some? ==>
                var start, end := old(GetStartDateTime()).value, old(GetEndDateTime()).value;
                var batch := SessionsInRange(allSessions, start, end) + InterventionsInRange(allInterventions, start, end);
                && (start > end ==>
                      outcome == StartAfterEnd && sendEnabled == old(sendEnabled) && sync.offlineQueue == old(sync.offlineQueue))
                && (start <= end && !serviceRunning ==>
                      outcome == ServiceNotRunning && sendEnabled && sync.offlineQueue == old(sync.offlineQueue))
                && (start <= end && serviceRunning && batch == [] ==>
                      outcome == NoData && sendEnabled && sync.offlineQueue == old(sync.offlineQueue))
                && (start <= end && serviceRunning && batch != [] ==>
                      && outcome == Sent(|batch|, networkAvailable && Succeeded(attempt))
                      && sendEnabled
                      && sync.offlineQueue == if outcome.success then old(sync.offlineQueue)
                                              else old(sync.offlineQueue) + batch)
    {
      var startDateTime := GetStartDateTime();
      var endDateTime := GetEndDateTime();
      if startDateTime.None? || endDateTime.None? {
        return MissingBounds;
      }
      if startDateTime.value > endDateTime.value {
        return StartAfterEnd;
      }
      sendEnabled := false;
      if !serviceRunning {
        sendEnabled := true;
        return ServiceNotRunning;
      }
      var filteredData := GetFilteredAnalyticsData(startDateTime.value, endDateTime.value, allSessions, allInterventions);
      if filteredData == [] {
        sendEnabled := true;
        return NoData;
      }
      var success := sync.SendBatchData(filteredData, networkAvailable, attempt);
      outcome := Sent(|filteredData|, success);
      sendEnabled := true;
    }
  }
}
