/** Imports the platform's own usage statistics as app sessions. A watermark
    (`lastProcessedTime`) keeps a stat from being imported twice across
    checks. */
module UsageTracking {
  import opened Lang
  import opened Platform
  import opened Events

  /** How far back the first check looks: 24 hours in ms. */
  const FIRST_RUN_LOOKBACK := 24 * 60 * 60 * 1000
  /** Only stats with more foreground time than this become sessions (ms). */
  const MEANINGFUL_SESSION_MILLIS := 10000

  /** The watermark a check queries from: the stored one, or a day before
      `now` on the first run (a stored 0). */
  function Watermark(lastProcessedTime: int, now: int): int
  {
    if lastProcessedTime == 0 then now - FIRST_RUN_LOOKBACK else lastProcessedTime
  }

  /** A stat used after the watermark with some foreground time is processed. */
  predicate IsNewUsage(stat: UsageStat, watermark: int)
  {
    stat.lastTimeUsed > watermark && stat.totalTimeInForeground > 0
  }

  /** `syncUsageStatToAnalytics`: the session a stat stands for, estimated
      to end at its last use and to start its foreground time earlier. */
  function SessionOf(stat: UsageStat, appNameOf: string -> string): (s: AppSession)
    ensures s.packageName == stat.packageName && s.sessionEnd == stat.lastTimeUsed
    ensures s.sessionEnd - s.sessionStart == stat.totalTimeInForeground
  {
    NewAppSession(appNameOf(stat.packageName), stat.packageName,
                  stat.lastTimeUsed - stat.totalTimeInForeground, stat.lastTimeUsed)
  }

  /** The sessions one pass over `stats` records, in order: one per new stat
      with more than ten seconds of foreground time. */
  function ImportedSessions(stats: seq<UsageStat>, watermark: int, appNameOf: string -> string): (r: seq<AppSession>)
    ensures |r| <= |stats|
  {
    if stats == [] then []
    else
      var last := stats[|stats| - 1];
      ImportedSessions(stats[..|stats| - 1], watermark, appNameOf)
        + (if IsNewUsage(last, watermark) && last.totalTimeInForeground > MEANINGFUL_SESSION_MILLIS
           then [SessionOf(last, appNameOf)] else [])
  }

  /** `newSessionsFound` after a pass over `stats`. */
  function CountNewUsage(stats: seq<UsageStat>, watermark: int): (n: nat)
    ensures n <= |stats|
  {
    if stats == [] then 0
    else CountNewUsage(stats[..|stats| - 1], watermark) + (if IsNewUsage(stats[|stats| - 1], watermark) then 1 else 0)
  }

  /** Every stat used after the watermark with more than ten seconds of
      foreground time is imported, and every imported session comes from
      such a stat, so nothing older than the watermark is imported again. */
  lemma {:induction false} ImportedSessionsComplete(stats: seq<UsageStat>, watermark: int, appNameOf: string -> string)
    ensures forall i :: 0 <= i < |stats| && stats[i].lastTimeUsed > watermark
                          && stats[i].totalTimeInForeground > MEANINGFUL_SESSION_MILLIS
                        ==> SessionOf(stats[i], appNameOf) in ImportedSessions(stats, watermark, appNameOf)
    ensures forall s :: s in ImportedSessions(stats, watermark, appNameOf) ==>
              exists i :: 0 <= i < |stats| && IsNewUsage(stats[i], watermark)
                          && stats[i].totalTimeInForeground > MEANINGFUL_SESSION_MILLIS
                          && s == SessionOf(stats[i], appNameOf)
  {
    if stats != [] {
      var init := stats[..|stats| - 1];
      ImportedSessionsComplete(init, watermark, appNameOf);
      forall s | s in ImportedSessions(stats, watermark, appNameOf)
        ensures exists i :: 0 <= i < |stats| && IsNewUsage(stats[i], watermark)
                            && stats[i].totalTimeInForeground > MEANINGFUL_SESSION_MILLIS
                            && s == SessionOf(stats[i], appNameOf)
      {
        if s in ImportedSessions(init, watermark, appNameOf) {
          var i :| 0 <= i < |init| && IsNewUsage(init[i], watermark)
                   && init[i].totalTimeInForeground > MEANINGFUL_SESSION_MILLIS && s == SessionOf(init[i], appNameOf);
          assert stats[i] == init[i];
        } else {
          assert s == SessionOf(stats[|stats| - 1], appNameOf);
        }
      }
    }
  }

  /** Each imported session is one of the processed stats, so a pass imports
      at most as many sessions as it counts. */
  lemma {:induction false} ImportedAtMostCounted(stats: seq<UsageStat>, watermark: int, appNameOf: string -> string)
    ensures |ImportedSessions(stats, watermark, appNameOf)| <= CountNewUsage(stats, watermark)
  {
    if stats != [] {
      ImportedAtMostCounted(stats[..|stats| - 1], watermark, appNameOf);
    }
  }

  /** One more stat extends the pass by that stat's session and count. */
  lemma ImportStep(stats: seq<UsageStat>, i: nat, watermark: int, appNameOf: string -> string)
    requires i < |stats|
    ensures ImportedSessions(stats[..i + 1], watermark, appNameOf)
         == ImportedSessions(stats[..i], watermark, appNameOf)
            + (if IsNewUsage(stats[i], watermark) && stats[i].totalTimeInForeground > MEANINGFUL_SESSION_MILLIS
               then [SessionOf(stats[i], appNameOf)] else [])
    ensures CountNewUsage(stats[..i + 1], watermark)
         == CountNewUsage(stats[..i], watermark) + (if IsNewUsage(stats[i], watermark) then 1 else 0)
  {
    assert stats[..i + 1][..i] == stats[..i];
  }

  /** `getCurrentForegroundApp`: no answer without permission or for an
      empty query; otherwise the package of the first most recently used
      entry (there is no `lastTimeUsed > 0` filter here). */
  function CurrentForegroundApp(hasPermission: bool, stats: seq<UsageStat>): (r: Option<string>)
    ensures r.None? <==> !hasPermission || stats == []
    ensures r.Some? ==> exists i :: 0 <= i < |stats| && stats[i].packageName == r.value
                          && (forall j :: 0 <= j < |stats| ==> stats[j].lastTimeUsed <= stats[i].lastTimeUsed)
                          && (forall j :: 0 <= j < i ==> stats[j].lastTimeUsed < stats[i].lastTimeUsed)
  {
    if !hasPermission || stats == [] then None
    else
      var k := MostRecentIndex(stats);
      Some(stats[k].packageName)
  }

  /** The tracker and its watermark. `recorded` holds the sessions handed to
      the analytics recorder, in order. */
  class UsageSessionTracker {
    var lastProcessedTime: int
    var recorded: seq<AppSession>

    constructor ()
      ensures lastProcessedTime == 0 && recorded == []
    {
      lastProcessedTime := 0;
      recorded := [];
    }

    /** `checkForNewSessions` at time `now`. `query` is the result of
        `queryUsageStats` from the watermark to `now`, or `None` when the
        query throws. Without permission nothing happens. A successful pass
        moves the watermark to `now`; a failed one keeps the watermark the
        first-run rule produced. */
    method CheckForNewSessions(hasPermission: bool, now: int, query: Option<seq<UsageStat>>, appNameOf: string -> string)
      returns (newSessionsFound: nat)
      modifies this
      ensures !hasPermission ==> unchanged(this) && newSessionsFound == 0
      ensures hasPermission && query.None? ==>
                && lastProcessedTime == Watermark(old(lastProcessedTime), now)
                && recorded == old(recorded) && newSessionsFound == 0
      ensures hasPermission && query.Some? ==>
                var watermark := Watermark(old(lastProcessedTime), now);
                && lastProcessedTime == now
                && recorded == old(recorded) + ImportedSessions(query.value, watermark, appNameOf)
                && newSessionsFound == CountNewUsage(query.value, watermark)
    {
      newSessionsFound := 0;
      if !hasPermission {
        return;
      }
      if lastProcessedTime == 0 {
        lastProcessedTime := now - FIRST_RUN_LOOKBACK;
      }
      if query.None? {
        return;
      }
      var stats := query.value;
      var watermark := lastProcessedTime;
      assert watermark == Watermark(old(lastProcessedTime), now) && recorded == old(recorded);
      var imported: seq<AppSession> := [];
      var i := 0;
      while i < |stats|
        invariant 0 <= i <= |stats|
        invariant recorded == old(recorded)
        invariant imported == ImportedSessions(stats[..i], watermark, appNameOf)
        invariant newSessionsFound == CountNewUsage(stats[..i], watermark)
      {
        var stat := stats[i];
        ImportStep(stats, i, watermark, appNameOf);
        if stat.lastTimeUsed > watermark && stat.totalTimeInForeground > 0 {
          if stat.totalTimeInForeground > MEANINGFUL_SESSION_MILLIS {
            imported := imported + [SessionOf(stat, appNameOf)];
          }
          newSessionsFound := newSessionsFound + 1;
        }
        i := i + 1;
      }
      assert stats[..i] == stats;
      recorded := recorded + imported;
      lastProcessedTime := now;
    }
  }
}
