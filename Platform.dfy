/** What the Android usage-statistics service hands the app: one `UsageStats`
    row per package (`queryUsageStats`) and foreground/background events
    (`queryEvents`), plus Kotlin's `maxByOrNull { it.lastTimeUsed }`. */
module Platform {
  import opened Lang

  /** One row of `UsageStatsManager.queryUsageStats`. */
  datatype UsageStat = UsageStat(packageName: string, lastTimeUsed: int, totalTimeInForeground: int)

  /** The kinds of `UsageEvents.Event` the app distinguishes. */
  datatype EventKind = MoveToForeground | MoveToBackground | OtherEvent

  /** One `UsageEvents.Event` of `UsageStatsManager.queryEvents`. */
  datatype UsageEvent = UsageEvent(eventType: EventKind, packageName: string, timeStamp: int)

  /** Index of the element `maxByOrNull { it.lastTimeUsed }` returns: the
      FIRST element with the greatest `lastTimeUsed`. */
  function MostRecentIndex(stats: seq<UsageStat>): (k: nat)
    requires |stats| > 0
    ensures k < |stats|
    ensures forall j :: 0 <= j < |stats| ==> stats[j].lastTimeUsed <= stats[k].lastTimeUsed
    ensures forall j :: 0 <= j < k ==> stats[j].lastTimeUsed < stats[k].lastTimeUsed
  {
    if |stats| == 1 then 0
    else
      var k := MostRecentIndex(stats[..|stats| - 1]);
      if stats[|stats| - 1].lastTimeUsed > stats[k].lastTimeUsed then |stats| - 1 else k
  }

  /** `stats.maxByOrNull { it.lastTimeUsed }`. */
  function MaxByLastTimeUsed(stats: seq<UsageStat>): (r: Option<UsageStat>)
    ensures r.None? <==> stats == []
    ensures r.Some? ==> r.value in stats
    ensures r.Some? ==> forall j :: 0 <= j < |stats| ==> stats[j].lastTimeUsed <= r.value.lastTimeUsed
    ensures r.Some? ==> exists i :: 0 <= i < |stats| && stats[i] == r.value
                          && forall j :: 0 <= j < i ==> stats[j].lastTimeUsed < stats[i].lastTimeUsed
  {
    if stats == [] then None else Some(stats[MostRecentIndex(stats)])
  }

  /** `stats.filter { it.lastTimeUsed > 0 }`. */
  function UsedStats(stats: seq<UsageStat>): (r: seq<UsageStat>)
    ensures forall x :: x in r <==> x in stats && x.lastTimeUsed > 0
    ensures r == [] <==> forall i :: 0 <= i < |stats| ==> stats[i].lastTimeUsed <= 0
  {
    if stats == [] then []
    else (if stats[0].lastTimeUsed > 0 then [stats[0]] else []) + UsedStats(stats[1..])
  }

  /** `stats.find { it.packageName == pkg }`: the first row of that package. */
  function FindPackage(stats: seq<UsageStat>, pkg: string): (r: Option<UsageStat>)
    ensures r.None? <==> forall j :: 0 <= j < |stats| ==> stats[j].packageName != pkg
    ensures r.Some? ==> r.value in stats && r.value.packageName == pkg
    ensures r.Some? ==> exists i :: 0 <= i < |stats| && stats[i] == r.value
                          && forall j :: 0 <= j < i ==> stats[j].packageName != pkg
  {
    if stats == [] then None
    else if stats[0].packageName == pkg then Some(stats[0])
    else
      var r := FindPackage(stats[1..], pkg);
      assert r.Some? ==> exists i :: 0 < i < |stats| && stats[i] == r.value
                           && forall j :: 0 <= j < i ==> stats[j].packageName != pkg by {
        if r.Some? {
          var i :| 0 <= i < |stats[1..]| && stats[1..][i] == r.value
                   && forall j :: 0 <= j < i ==> stats[1..][j].packageName != pkg;
          assert stats[i + 1] == r.value;
          forall j | 0 <= j < i + 1 ensures stats[j].packageName != pkg {
            if j > 0 {
              assert stats[j] == stats[1..][j - 1];
            }
          }
        }
      }
      r
  }

  /** `filter` keeps order and duplicates: it distributes over
      concatenation, and a single row is kept exactly when it was used. */
  lemma {:induction false} UsedStatsAppend(a: seq<UsageStat>, b: seq<UsageStat>)
    ensures UsedStats(a + b) == UsedStats(a) + UsedStats(b)
  {
    if a == [] {
      assert a + b == b;
    } else {
      UsedStatsAppend(a[1..], b);
      UsedStatsConsStep(a, b);
    }
  }

  lemma UsedStatsConsStep(a: seq<UsageStat>, b: seq<UsageStat>)
    requires a != []
    requires UsedStats(a[1..] + b) == UsedStats(a[1..]) + UsedStats(b)
    ensures UsedStats(a + b) == UsedStats(a) + UsedStats(b)
  {
    var head := if a[0].lastTimeUsed > 0 then [a[0]] else [];
    TailOfAppend(a, b);
    AppendAssoc(head, UsedStats(a[1..]), UsedStats(b));
  }

  lemma UsedStatsSingle(x: UsageStat)
    ensures UsedStats([x]) == if x.lastTimeUsed > 0 then [x] else []
  {
    assert [x][1..] == [];
  }

  /** Row `i` is used, no used row is newer, and every used row before it
      is strictly older: the row a first-maximum search over the used rows
      stops at. */
  predicate IsFirstMostRecentUsed(stats: seq<UsageStat>, i: nat)
  {
    && i < |stats| && stats[i].lastTimeUsed > 0
    && (forall j :: 0 <= j < |stats| && stats[j].lastTimeUsed > 0 ==> stats[j].lastTimeUsed <= stats[i].lastTimeUsed)
    && (forall j :: 0 <= j < i && stats[j].lastTimeUsed > 0 ==> stats[j].lastTimeUsed < stats[i].lastTimeUsed)
  }

  /** `maxByOrNull` over `filter { lastTimeUsed > 0 }` picks, in the
      unfiltered list, the first used row with the greatest `lastTimeUsed`. */
  lemma {:induction false} MaxUsedIsFirstInQuery(stats: seq<UsageStat>) returns (i: nat)
    requires UsedStats(stats) != []
    ensures IsFirstMostRecentUsed(stats, i) && stats[i] == MaxByLastTimeUsed(UsedStats(stats)).value
    decreases |stats|, 1
  {
    var init, x := stats[..|stats| - 1], stats[|stats| - 1];
    assert stats == init + [x];
    i := MaxUsedSnoc(init, x);
    assert IsFirstMostRecentUsed(stats, i);
  }

  /** The inductive step of `MaxUsedIsFirstInQuery`, one row appended. */
  lemma {:induction false} MaxUsedSnoc(init: seq<UsageStat>, x: UsageStat) returns (i: nat)
    requires UsedStats(init + [x]) != []
    ensures IsFirstMostRecentUsed(init + [x], i) && (init + [x])[i] == MaxByLastTimeUsed(UsedStats(init + [x])).value
    decreases |init| + 1, 0
  {
    UsedStatsAppend(init, [x]);
    UsedStatsSingle(x);
    var ui := UsedStats(init);
    if x.lastTimeUsed <= 0 {
      AppendEmpty(ui);
      i := MaxUsedIsFirstInQuery(init);
      FirstMostRecentSnoc(init, x, i);
    } else {
      MaxBySnoc(ui, x);
      if ui == [] {
        i := |init|;
        LastIsFirstMostRecent(init, x);
      } else if x.lastTimeUsed > MaxByLastTimeUsed(ui).value.lastTimeUsed {
        i := |init|;
        forall j | 0 <= j < |init| && init[j].lastTimeUsed > 0 ensures init[j].lastTimeUsed < x.lastTimeUsed {
          UsedNoNewerThanPick(init, j);
        }
        NewestLastIsFirstMostRecent(init, x);
      } else {
        i := MaxUsedIsFirstInQuery(init);
        FirstMostRecentSnoc(init, x, i);
      }
    }
  }

  /** `maxByOrNull` over a list extended by one row: the new row wins only
      when it is strictly newer than the previous pick. */
  lemma MaxBySnoc(s: seq<UsageStat>, x: UsageStat)
    ensures MaxByLastTimeUsed(s + [x]) ==
      if s == [] || x.lastTimeUsed > MaxByLastTimeUsed(s).value.lastTimeUsed then Some(x) else MaxByLastTimeUsed(s)
  {
    var t := s + [x];
    assert t[..|t| - 1] == s;
    if s != [] {
      var k := MostRecentIndex(s);
      assert t[k] == s[k];
    }
  }

  /** Appending a row no newer than the pick keeps the pick. */
  lemma FirstMostRecentSnoc(init: seq<UsageStat>, x: UsageStat, i: nat)
    requires IsFirstMostRecentUsed(init, i) && x.lastTimeUsed <= init[i].lastTimeUsed
    ensures IsFirstMostRecentUsed(init + [x], i) && (init + [x])[i] == init[i]
  {
    var s := init + [x];
    forall j | 0 <= j < |s| && s[j].lastTimeUsed > 0 ensures s[j].lastTimeUsed <= s[i].lastTimeUsed {
      if j < |init| {
        assert s[j] == init[j];
      }
    }
    forall j | 0 <= j < i && s[j].lastTimeUsed > 0 ensures s[j].lastTimeUsed < s[i].lastTimeUsed {
      assert s[j] == init[j];
    }
  }

  /** A used row after rows that are all unused is the pick. */
  lemma LastIsFirstMostRecent(init: seq<UsageStat>, x: UsageStat)
    requires UsedStats(init) == [] && x.lastTimeUsed > 0
    ensures IsFirstMostRecentUsed(init + [x], |init|)
  {
    var s := init + [x];
    forall j | 0 <= j < |init| ensures s[j].lastTimeUsed <= 0 {
      assert s[j] == init[j];
    }
  }

  /** A used row strictly newer than every used row before it is the pick. */
  lemma NewestLastIsFirstMostRecent(init: seq<UsageStat>, x: UsageStat)
    requires x.lastTimeUsed > 0
    requires forall j :: 0 <= j < |init| && init[j].lastTimeUsed > 0 ==> init[j].lastTimeUsed < x.lastTimeUsed
    ensures IsFirstMostRecentUsed(init + [x], |init|)
  {
    var s := init + [x];
    assert forall j :: 0 <= j < |init| ==> s[j] == init[j];
  }

  /** No used row is newer than the row `maxByOrNull` picks from the used rows. */
  lemma UsedNoNewerThanPick(stats: seq<UsageStat>, j: nat)
    requires j < |stats| && stats[j].lastTimeUsed > 0
    ensures UsedStats(stats) != []
    ensures stats[j].lastTimeUsed <= MaxByLastTimeUsed(UsedStats(stats)).value.lastTimeUsed
  {
    var u := UsedStats(stats);
    assert stats[j] in u;
    var m :| 0 <= m < |u| && u[m] == stats[j];
  }
}
