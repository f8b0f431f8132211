/** The screen-time list: today's usage statistics of the three tracked
    apps, one row per package with its foreground time in whole minutes,
    largest first. The statistics query is an input. */
module ScreenTimeViewModel {
  import opened Lang
  import opened Platform
  import opened Sorting

  /** One row of the list. */
  datatype AppUsageInfo = AppUsageInfo(packageName: string, usageMinutes: int)

  const INSTAGRAM_PACKAGE := "com.instagram.android"
  const FACEBOOK_PACKAGE := "com.facebook.katana"
  const YOUTUBE_PACKAGE := "com.google.android.youtube"
  const ALLOWED_APPS: set<string> := {INSTAGRAM_PACKAGE, FACEBOOK_PACKAGE, YOUTUBE_PACKAGE}

  const MILLIS_PER_MINUTE := 1000 * 60

  /** The sort key of the list. */
  function Minutes(a: AppUsageInfo): int { a.usageMinutes }

  function PackageOf(a: AppUsageInfo): string { a.packageName }

  predicate DistinctStrings(s: seq<string>)
  {
    forall i, j :: 0 <= i < j < |s| ==> s[i] != s[j]
  }

  /** `filter { it.totalTimeInForeground > 0 }`. */
  function Foreground(stats: seq<UsageStat>): (r: seq<UsageStat>)
    ensures forall x :: x in r <==> x in stats && x.totalTimeInForeground > 0
  {
    if stats == [] then []
    else (if stats[0].totalTimeInForeground > 0 then [stats[0]] else []) + Foreground(stats[1..])
  }

  /** Some row of `stats` belongs to `pkg`. */
  predicate HasRow(stats: seq<UsageStat>, pkg: string)
  {
    exists i :: 0 <= i < |stats| && stats[i].packageName == pkg
  }

  lemma HasRowSnoc(stats: seq<UsageStat>, pkg: string)
    requires stats != []
    ensures HasRow(stats, pkg) <==> HasRow(stats[..|stats| - 1], pkg) || stats[|stats| - 1].packageName == pkg
  {
    var init := stats[..|stats| - 1];
    if HasRow(stats, pkg) && stats[|stats| - 1].packageName != pkg {
      var i :| 0 <= i < |stats| && stats[i].packageName == pkg;
      assert init[i].packageName == pkg;
    }
    if HasRow(init, pkg) {
      var i :| 0 <= i < |init| && init[i].packageName == pkg;
      assert stats[i].packageName == pkg;
    }
  }

  /** The keys of `groupBy { it.packageName }`: every package once, in the
      order of its first row. */
  function Packages(stats: seq<UsageStat>): (r: seq<string>)
    ensures DistinctStrings(r)
    ensures forall p :: p in r <==> HasRow(stats, p)
  {
    if stats == [] then []
    else
      var init := Packages(stats[..|stats| - 1]);
      var p := stats[|stats| - 1].packageName;
      assert forall q :: HasRow(stats, q) <==> HasRow(stats[..|stats| - 1], q) || p == q by {
        forall q ensures HasRow(stats, q) <==> HasRow(stats[..|stats| - 1], q) || p == q {
          HasRowSnoc(stats, q);
        }
      }
      if p in init then init else init + [p]
  }

  /** `statsList.sumOf { it.totalTimeInForeground }` over the group of `pkg`. */
  function TotalMillis(stats: seq<UsageStat>, pkg: string): int
  {
    if stats == [] then 0
    else (if stats[0].packageName == pkg then stats[0].totalTimeInForeground else 0) + TotalMillis(stats[1..], pkg)
  }

  /** `filterKeys { it in allowedApps }.map { … }` over the groups `keys`:
      the whole group's time is summed first and then truncated to minutes. */
  function Summaries(keys: seq<string>, stats: seq<UsageStat>): (r: seq<AppUsageInfo>)
    ensures forall a :: a in r <==>
              a.packageName in keys && a.packageName in ALLOWED_APPS
              && a.usageMinutes == TruncDiv(TotalMillis(stats, a.packageName), MILLIS_PER_MINUTE)
    ensures DistinctStrings(keys) ==> DistinctBy(r, PackageOf)
  {
    if keys == [] then []
    else
      var rest := Summaries(keys[1..], stats);
      assert forall a :: a in rest ==> a.packageName != keys[0] || !DistinctStrings(keys);
      (if keys[0] in ALLOWED_APPS
       then [AppUsageInfo(keys[0], TruncDiv(TotalMillis(stats, keys[0]), MILLIS_PER_MINUTE))]
       else []) + rest
  }

  /** `filter` keeps order and duplicates: it distributes over
      concatenation, and a single row is kept exactly when it has
      foreground time. */
  lemma {:induction false} ForegroundAppend(a: seq<UsageStat>, b: seq<UsageStat>)
    ensures Foreground(a + b) == Foreground(a) + Foreground(b)
  {
    if a == [] {
      assert a + b == b;
    } else {
      ForegroundAppend(a[1..], b);
      var head := if a[0].totalTimeInForeground > 0 then [a[0]] else [];
      TailOfAppend(a, b);
      AppendAssoc(head, Foreground(a[1..]), Foreground(b));
    }
  }

  lemma ForegroundSingle(x: UsageStat)
    ensures Foreground([x]) == if x.totalTimeInForeground > 0 then [x] else []
  {
    assert [x][1..] == [];
  }

  /** Every row of a later package in `r` comes after some row of each
      earlier package: `r` lists the packages in the order of their first
      rows. */
  ghost predicate InFirstRowOrder(stats: seq<UsageStat>, r: seq<string>)
  {
    forall i, j, k :: 0 <= i < j < |r| && 0 <= k < |stats| && stats[k].packageName == r[j] ==> HasRow(stats[..k], r[i])
  }

  /** `groupBy` keeps its keys in the order of their first rows. */
  lemma {:induction false} PackagesInFirstRowOrder(stats: seq<UsageStat>)
    ensures InFirstRowOrder(stats, Packages(stats))
  {
    if stats != [] {
      PackagesInFirstRowOrder(stats[..|stats| - 1]);
      PackagesOrderStep(stats);
    }
  }

  lemma PackagesOrderStep(stats: seq<UsageStat>)
    requires stats != []
    requires InFirstRowOrder(stats[..|stats| - 1], Packages(stats[..|stats| - 1]))
    ensures InFirstRowOrder(stats, Packages(stats))
  {
    var r := Packages(stats);
    forall i, j, k | 0 <= i < j < |r| && 0 <= k < |stats| && stats[k].packageName == r[j]
      ensures HasRow(stats[..k], r[i])
    {
      if k == |stats| - 1 {
        PackagesOrderAtLast(stats, i);
      } else {
        PackagesOrderBeforeLast(stats, i, j, k);
      }
    }
  }

  /** Any key other than the last row's new one has a row before that row. */
  lemma PackagesOrderAtLast(stats: seq<UsageStat>, i: nat)
    requires stats != [] && i + 1 < |Packages(stats)|
    ensures HasRow(stats[..|stats| - 1], Packages(stats)[i])
  {
    var init := stats[..|stats| - 1];
    var r0 := Packages(init);
    assert Packages(stats)[i] == r0[i] && r0[i] in r0;
  }

  /** An earlier row keeps the order it had without the last row. */
  lemma PackagesOrderBeforeLast(stats: seq<UsageStat>, i: nat, j: nat, k: nat)
    requires stats != [] && k + 1 < |stats|
    requires InFirstRowOrder(stats[..|stats| - 1], Packages(stats[..|stats| - 1]))
    requires i < j < |Packages(stats)| && stats[k].packageName == Packages(stats)[j]
    ensures HasRow(stats[..k], Packages(stats)[i])
  {
    var init := stats[..|stats| - 1];
    var r0, r := Packages(init), Packages(stats);
    var p := stats[|stats| - 1].packageName;
    assert r == if p in r0 then r0 else r0 + [p];
    assert stats[k] == init[k];
    assert HasRow(init, r[j]);
    assert j < |r0| && r[j] == r0[j] && r[i] == r0[i];
    assert HasRow(init[..k], r0[i]);
    var w :| 0 <= w < k && init[..k][w].packageName == r0[i];
    assert stats[..k][w] == stats[w] == init[w] == init[..k][w];
  }

  /** The rows follow the order of the keys: building them distributes over
      concatenation of the key list. */
  lemma {:induction false} SummariesAppend(k1: seq<string>, k2: seq<string>, stats: seq<UsageStat>)
    ensures Summaries(k1 + k2, stats) == Summaries(k1, stats) + Summaries(k2, stats)
  {
    if k1 == [] {
      assert k1 + k2 == k2;
    } else {
      SummariesAppend(k1[1..], k2, stats);
      var head := if k1[0] in ALLOWED_APPS
                  then [AppUsageInfo(k1[0], TruncDiv(TotalMillis(stats, k1[0]), MILLIS_PER_MINUTE))] else [];
      TailOfAppend(k1, k2);
      AppendAssoc(head, Summaries(k1[1..], stats), Summaries(k2, stats));
    }
  }

  /** The row of one key: present exactly for an allowed app. */
  lemma SummariesSingle(key: string, stats: seq<UsageStat>)
    ensures Summaries([key], stats) ==
      if key in ALLOWED_APPS then [AppUsageInfo(key, TruncDiv(TotalMillis(stats, key), MILLIS_PER_MINUTE))] else []
  {
    assert [key][1..] == [];
  }

  /** `loadUsageStats`, given the rows of the daily statistics query. */
  function LoadUsageStats(stats: seq<UsageStat>): seq<AppUsageInfo>
  {
    var fg := Foreground(stats);
    SortDesc(Summaries(Packages(fg), fg), Minutes)
  }

  /** Only rows with foreground time count, so each group's total is positive. */
  lemma {:induction false} TotalOfForegroundRows(stats: seq<UsageStat>, pkg: string)
    requires forall i :: 0 <= i < |stats| ==> stats[i].totalTimeInForeground > 0
    ensures TotalMillis(stats, pkg) >= 0
    ensures (exists i :: 0 <= i < |stats| && stats[i].packageName == pkg) ==> TotalMillis(stats, pkg) > 0
  {
    if stats != [] {
      TotalOfForegroundRows(stats[1..], pkg);
      if exists i :: 0 <= i < |stats| && stats[i].packageName == pkg {
        var i :| 0 <= i < |stats| && stats[i].packageName == pkg;
        if i > 0 {
          assert stats[1..][i - 1].packageName == pkg;
        }
      }
    }
  }

  /** Distinct packages drawn from a set fit in it. */
  lemma {:induction false} DistinctWithin(s: seq<AppUsageInfo>, allowed: set<string>)
    requires DistinctBy(s, PackageOf)
    requires forall a :: a in s ==> a.packageName in allowed
    ensures |s| <= |allowed|
  {
    if s != [] {
      forall a | a in s[1..] ensures a.packageName in allowed - {s[0].packageName} {
        var j :| 0 <= j < |s[1..]| && s[1..][j] == a;
        assert PackageOf(s[0]) != PackageOf(s[j + 1]);
      }
      DistinctWithin(s[1..], allowed - {s[0].packageName});
    }
  }

  /** The groups are the packages of rows with foreground time. */
  lemma ForegroundPackages(stats: seq<UsageStat>, p: string)
    ensures HasRow(Foreground(stats), p) <==>
              exists j :: 0 <= j < |stats| && stats[j].packageName == p && stats[j].totalTimeInForeground > 0
  {
    var fg := Foreground(stats);
    if exists j :: 0 <= j < |stats| && stats[j].packageName == p && stats[j].totalTimeInForeground > 0 {
      var j :| 0 <= j < |stats| && stats[j].packageName == p && stats[j].totalTimeInForeground > 0;
      assert stats[j] in fg;
      var k :| 0 <= k < |fg| && fg[k] == stats[j];
      assert fg[k].packageName == p;
    }
    if HasRow(fg, p) {
      var k :| 0 <= k < |fg| && fg[k].packageName == p;
      assert fg[k] in fg;
      var j :| 0 <= j < |stats| && stats[j] == fg[k];
      assert stats[j].packageName == p && stats[j].totalTimeInForeground > 0;
    }
  }

  /** The list shows exactly the tracked apps that had foreground time. */
  lemma LoadUsageStatsShowsTrackedApps(stats: seq<UsageStat>, p: string)
    ensures (exists a :: a in LoadUsageStats(stats) && a.packageName == p) <==>
              p in ALLOWED_APPS && exists j :: 0 <= j < |stats| && stats[j].packageName == p && stats[j].totalTimeInForeground > 0
  {
    var fg := Foreground(stats);
    var s := Summaries(Packages(fg), fg);
    SortDescDistinctBy(s, Minutes, PackageOf);
    ForegroundPackages(stats, p);
    if p in ALLOWED_APPS && HasRow(fg, p) {
      var a := AppUsageInfo(p, TruncDiv(TotalMillis(fg, p), MILLIS_PER_MINUTE));
      assert a in s;
      assert a in LoadUsageStats(stats);
    }
    if exists a :: a in LoadUsageStats(stats) && a.packageName == p {
      var a :| a in LoadUsageStats(stats) && a.packageName == p;
      assert a in s;
      assert p in Packages(fg);
    }
  }

  /** Each tracked app is shown once, so there are at most three rows. */
  lemma LoadUsageStatsRows(stats: seq<UsageStat>)
    ensures DistinctBy(LoadUsageStats(stats), PackageOf)
    ensures |LoadUsageStats(stats)| <= |ALLOWED_APPS| == 3
  {
    var fg := Foreground(stats);
    var s := Summaries(Packages(fg), fg);
    var r := LoadUsageStats(stats);
    SortDescDistinctBy(s, Minutes, PackageOf);
    assert forall a :: a in r ==> a.packageName in ALLOWED_APPS;
    DistinctWithin(r, ALLOWED_APPS);
  }

  /** Whole minutes of a non-negative time. */
  lemma MinutesBound(total: int, minutes: int)
    requires total >= 0 && minutes == TruncDiv(total, MILLIS_PER_MINUTE)
    ensures minutes >= 0 && minutes * MILLIS_PER_MINUTE <= total < (minutes + 1) * MILLIS_PER_MINUTE
  {
  }

  /** The row at `i` holds its whole group's time truncated to minutes. */
  lemma LoadUsageStatsRowMinutes(stats: seq<UsageStat>, i: nat)
    requires i < |LoadUsageStats(stats)|
    ensures var a := LoadUsageStats(stats)[i];
      && a.usageMinutes >= 0
      && a.usageMinutes * MILLIS_PER_MINUTE <= TotalMillis(Foreground(stats), a.packageName)
           < (a.usageMinutes + 1) * MILLIS_PER_MINUTE
  {
    var fg := Foreground(stats);
    var s := Summaries(Packages(fg), fg);
    var a := LoadUsageStats(stats)[i];
    SortDescDistinctBy(s, Minutes, PackageOf);
    assert a in s;
    forall k | 0 <= k < |fg| ensures fg[k].totalTimeInForeground > 0 {
      assert fg[k] in fg;
    }
    TotalOfForegroundRows(fg, a.packageName);
    MinutesBound(TotalMillis(fg, a.packageName), a.usageMinutes);
  }

  /** Each row holds its whole group's time truncated to minutes. */
  lemma LoadUsageStatsMinutes(stats: seq<UsageStat>)
    ensures var r := LoadUsageStats(stats);
      forall i :: 0 <= i < |r| ==>
        && r[i].usageMinutes >= 0
        && r[i].usageMinutes * MILLIS_PER_MINUTE <= TotalMillis(Foreground(stats), r[i].packageName)
             < (r[i].usageMinutes + 1) * MILLIS_PER_MINUTE
  {
    forall i | 0 <= i < |LoadUsageStats(stats)| {
      LoadUsageStatsRowMinutes(stats, i);
    }
  }

  /** The rows are ordered by minutes, largest first, and rows with equal
      minutes keep their relative order from the unsorted list, whose rows
      follow the order of the packages' first usage rows
      (`PackagesInFirstRowOrder`, `SummariesAppend`). */
  lemma LoadUsageStatsOrder(stats: seq<UsageStat>)
    ensures SortedDesc(LoadUsageStats(stats), Minutes)
    ensures forall k :: WithKey(LoadUsageStats(stats), Minutes, k) ==
                        WithKey(Summaries(Packages(Foreground(stats)), Foreground(stats)), Minutes, k)
  {
    SortDescCorrect(Summaries(Packages(Foreground(stats)), Foreground(stats)), Minutes);
  }

  /** Time is summed per package before truncating: two 40-second rows of
      one app make one minute, although each alone makes none. */
  lemma SumThenTruncate()
    ensures var row := UsageStat(INSTAGRAM_PACKAGE, 1, 40000);
      && LoadUsageStats([row]) == [AppUsageInfo(INSTAGRAM_PACKAGE, 0)]
      && LoadUsageStats([row, row]) == [AppUsageInfo(INSTAGRAM_PACKAGE, 1)]
  {
    var row := UsageStat(INSTAGRAM_PACKAGE, 1, 40000);
    assert [row, row][1..] == [row] && [row, row][..1] == [row];
    assert [row][1..] == [] && [row][..0] == [];
    assert Foreground([row]) == [row];
    assert Foreground([row, row]) == [row, row];
    assert Packages([row]) == [INSTAGRAM_PACKAGE];
    assert Packages([row, row]) == [INSTAGRAM_PACKAGE];
    assert TotalMillis([row], INSTAGRAM_PACKAGE) == 40000;
    assert TotalMillis([row, row], INSTAGRAM_PACKAGE) == 80000;
    assert [INSTAGRAM_PACKAGE][1..] == [];
    assert TruncDiv(40000, MILLIS_PER_MINUTE) == 0 && TruncDiv(80000, MILLIS_PER_MINUTE) == 1;
    assert Summaries([INSTAGRAM_PACKAGE], [row]) == [AppUsageInfo(INSTAGRAM_PACKAGE, 0)];
    assert Summaries([INSTAGRAM_PACKAGE], [row, row]) == [AppUsageInfo(INSTAGRAM_PACKAGE, 1)];
  }
}
