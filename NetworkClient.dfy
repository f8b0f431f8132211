/** The client side of the wire: how an `AnalyticsData` value becomes a
    JSON object, where requests go, and the device identity sent with them. */
module Network {
  import opened Lang
  import opened Json
  import opened Events
  import opened Config

  // ---------------------------------------------------------------------
  // Serialization

  /** Gson's default form of one `AppStats`. */
  function StatsJson(st: AppStats): Json
  {
    JObj(map["minutes" := JNum(st.minutes), "sessions" := JNum(st.sessions), "totalTaps" := JNum(st.totalTaps),
             "totalDelays" := JNum(st.totalDelays), "totalAbandonments" := JNum(st.totalAbandonments),
             "totalInterruptions" := JNum(st.totalInterruptions)])
  }

  function TotalsJson(totals: map<string, AppStats>): Json
  {
    JObj(map name | name in totals :: StatsJson(totals[name]))
  }

  /** `analyticsDataSerializer`: one property per field of the variant, in
      the variant's own names; an intervention's two nullable fields are
      left out when null. Timestamps travel as ISO-8601 text (`JTime`). */
  function Serialize(d: AnalyticsData): (j: Json)
    ensures j.JObj? && "eventType" in j.fields && j.fields["eventType"] == JStr(EventType(d))
  {
    match d
    case SessionEvent(s) =>
      JObj(map["eventType" := JStr(s.eventType), "appName" := JStr(s.appName), "packageName" := JStr(s.packageName),
               "sessionStart" := JTime(s.sessionStart), "sessionEnd" := JTime(s.sessionEnd)])
    case TapEvent(t) =>
      JObj(map["eventType" := JStr(t.eventType), "timestamp" := JTime(t.timestamp), "appName" := JStr(t.appName),
               "packageName" := JStr(t.packageName)])
    case InterventionEvent(i) =>
      var required := map["eventType" := JStr(i.eventType), "interventionStart" := JTime(i.interventionStart),
                          "interventionEnd" := JTime(i.interventionEnd), "appName" := JStr(i.appName),
                          "interventionType" := JStr(i.interventionType), "buttonClicked" := JStr(i.buttonClicked)];
      var withVideo := if i.videoDuration.Some? then required["videoDuration" := JNum(i.videoDuration.value)] else required;
      JObj(if i.requiredWatchTime.Some? then withVideo["requiredWatchTime" := JNum(i.requiredWatchTime.value)] else withVideo)
    case StatusEvent(st) =>
      JObj(map["eventType" := JStr(st.eventType), "batteryLevel" := JNum(st.batteryLevel),
               "isCharging" := JBool(st.isCharging), "connectionType" := JStr(st.connectionType),
               "connectionStrength" := JStr(st.connectionStrength), "appVersion" := JStr(st.appVersion),
               "lastBatchSent" := JTime(st.lastBatchSent)])
    case SummaryEvent(sm) =>
      JObj(map["eventType" := JStr(sm.eventType), "date" := JStr(sm.date), "totalScreenTime" := JNum(sm.totalScreenTime),
               "appTotals" := TotalsJson(sm.appTotals)])
  }

  /** The keys of each variant's JSON object: "eventType" plus the variant's
      own fields, an intervention's nullable ones only when present. */
  lemma SerializedKeys(d: AnalyticsData)
    ensures d.SessionEvent? ==>
              Serialize(d).fields.Keys == {"eventType", "appName", "packageName", "sessionStart", "sessionEnd"}
    ensures d.TapEvent? ==>
              Serialize(d).fields.Keys == {"eventType", "timestamp", "appName", "packageName"}
    ensures d.InterventionEvent? ==>
              Serialize(d).fields.Keys ==
                {"eventType", "interventionStart", "interventionEnd", "appName", "interventionType", "buttonClicked"}
                + (if d.intervention.videoDuration.Some? then {"videoDuration"} else {})
                + (if d.intervention.requiredWatchTime.Some? then {"requiredWatchTime"} else {})
    ensures d.StatusEvent? ==>
              Serialize(d).fields.Keys == {"eventType", "batteryLevel", "isCharging", "connectionType",
                                           "connectionStrength", "appVersion", "lastBatchSent"}
    ensures d.SummaryEvent? ==>
              Serialize(d).fields.Keys == {"eventType", "date", "totalScreenTime", "appTotals"}
  {
    match d
    case SessionEvent(s) =>
      assert Serialize(d).fields.Keys == {"eventType", "appName", "packageName", "sessionStart", "sessionEnd"};
    case TapEvent(t) =>
      assert Serialize(d).fields.Keys == {"eventType", "timestamp", "appName", "packageName"};
    case InterventionEvent(i) =>
      InterventionKeys(i);
    case StatusEvent(st) =>
      assert Serialize(d).fields.Keys == {"eventType", "batteryLevel", "isCharging", "connectionType",
                                          "connectionStrength", "appVersion", "lastBatchSent"};
    case SummaryEvent(sm) =>
      assert Serialize(d).fields.Keys == {"eventType", "date", "totalScreenTime", "appTotals"};
  }

  lemma InterventionKeys(i: Intervention)
    ensures Serialize(InterventionEvent(i)).fields.Keys ==
              {"eventType", "interventionStart", "interventionEnd", "appName", "interventionType", "buttonClicked"}
              + (if i.videoDuration.Some? then {"videoDuration"} else {})
              + (if i.requiredWatchTime.Some? then {"requiredWatchTime"} else {})
  {
  }

  // ---------------------------------------------------------------------
  // A reference reader for the wire format

  function StrField(o: map<string, Json>, key: string): Option<string>
  {
    if key in o && o[key].JStr? then Some(o[key].s) else None
  }

  function NumField(o: map<string, Json>, key: string): Option<int>
  {
    if key in o && o[key].JNum? then Some(o[key].n) else None
  }

  function TimeField(o: map<string, Json>, key: string): Option<int>
  {
    if key in o && o[key].JTime? then Some(o[key].ms) else None
  }

  function BoolField(o: map<string, Json>, key: string): Option<bool>
  {
    if key in o && o[key].JBool? then Some(o[key].b) else None
  }

  function ParseStats(v: Json): Option<AppStats>
  {
    if !v.JObj? then None
    else
      var o := v.fields;
      var minutes, sessions, taps := NumField(o, "minutes"), NumField(o, "sessions"), NumField(o, "totalTaps");
      var delays, abandonments := NumField(o, "totalDelays"), NumField(o, "totalAbandonments");
      var interruptions := NumField(o, "totalInterruptions");
      if minutes.Some? && sessions.Some? && taps.Some? && delays.Some? && abandonments.Some? && interruptions.Some?
      then Some(AppStats(minutes.value, sessions.value, taps.value, delays.value, abandonments.value, interruptions.value))
      else None
  }

  function ParseTotals(v: Json): Option<map<string, AppStats>>
  {
    if v.JObj? && forall name :: name in v.fields ==> ParseStats(v.fields[name]).Some?
    then Some(map name | name in v.fields :: ParseStats(v.fields[name]).value)
    else None
  }

  /** Reads an event back, choosing the variant by its "eventType" the way
      the collector does. */
  function Deserialize(j: Json): Option<AnalyticsData>
  {
    if !j.JObj? then None
    else
      var o := j.fields;
      var tag := StrField(o, "eventType");
      if tag == Some(APP_SESSION_TAG) then
        var appName, pkg := StrField(o, "appName"), StrField(o, "packageName");
        var start, end := TimeField(o, "sessionStart"), TimeField(o, "sessionEnd");
        if appName.Some? && pkg.Some? && start.Some? && end.Some?
        then Some(SessionEvent(AppSession(tag.value, appName.value, pkg.value, start.value, end.value)))
        else None
      else if tag == Some(APP_TAP_TAG) then
        var ts, appName, pkg := TimeField(o, "timestamp"), StrField(o, "appName"), StrField(o, "packageName");
        if ts.Some? && appName.Some? && pkg.Some?
        then Some(TapEvent(AppTap(tag.value, ts.value, appName.value, pkg.value)))
        else None
      else if tag == Some(INTERVENTION_TAG) then
        var start, end := TimeField(o, "interventionStart"), TimeField(o, "interventionEnd");
        var appName, kind, button := StrField(o, "appName"), StrField(o, "interventionType"), StrField(o, "buttonClicked");
        if start.Some? && end.Some? && appName.Some? && kind.Some? && button.Some?
        then Some(InterventionEvent(Intervention(tag.value, start.value, end.value, appName.value, kind.value,
                                                 NumField(o, "videoDuration"), NumField(o, "requiredWatchTime"),
                                                 button.value)))
        else None
      else if tag == Some(DEVICE_STATUS_TAG) then
        var battery, charging := NumField(o, "batteryLevel"), BoolField(o, "isCharging");
        var ctype, strength := StrField(o, "connectionType"), StrField(o, "connectionStrength");
        var version, lastBatch := StrField(o, "appVersion"), TimeField(o, "lastBatchSent");
        if battery.Some? && charging.Some? && ctype.Some? && strength.Some? && version.Some? && lastBatch.Some?
        then Some(StatusEvent(DeviceStatus(tag.value, battery.value, charging.value, ctype.value, strength.value,
                                           version.value, lastBatch.value)))
        else None
      else if tag == Some(DAILY_SUMMARY_TAG) then
        var date, total := StrField(o, "date"), NumField(o, "totalScreenTime");
        var totals := if "appTotals" in o then ParseTotals(o["appTotals"]) else None;
        if date.Some? && total.Some? && totals.Some?
        then Some(SummaryEvent(DailySummary(tag.value, date.value, total.value, totals.value)))
        else None
      else None
  }

  lemma StatsRoundTrip(st: AppStats)
    ensures ParseStats(StatsJson(st)) == Some(st)
  {
  }

  lemma TotalsRoundTrip(totals: map<string, AppStats>)
    ensures ParseTotals(TotalsJson(totals)) == Some(totals)
  {
    var j := TotalsJson(totals);
    forall name | name in j.fields
      ensures ParseStats(j.fields[name]) == Some(totals[name])
    {
      StatsRoundTrip(totals[name]);
    }
    assert (map name | name in j.fields :: ParseStats(j.fields[name]).value) == totals;
  }

  /** Every event carrying its variant's own tag reads back as itself:
      every field, including absent nullable ones, survives the trip. */
  lemma SerializeRoundTrip(d: AnalyticsData)
    requires HasDefaultTag(d)
    ensures Deserialize(Serialize(d)) == Some(d)
  {
    match d
    case SessionEvent(s) => SessionRoundTrip(s);
    case TapEvent(t) => TapRoundTrip(t);
    case InterventionEvent(i) => InterventionRoundTrip(i);
    case StatusEvent(st) => StatusRoundTrip(st);
    case SummaryEvent(sm) => SummaryRoundTrip(sm);
  }

  lemma SessionRoundTrip(s: AppSession)
    requires s.eventType == APP_SESSION_TAG
    ensures Deserialize(Serialize(SessionEvent(s))) == Some(SessionEvent(s))
  {
  }

  lemma TapRoundTrip(t: AppTap)
    requires t.eventType == APP_TAP_TAG
    ensures Deserialize(Serialize(TapEvent(t))) == Some(TapEvent(t))
  {
  }

  lemma InterventionRoundTrip(i: Intervention)
    requires i.eventType == INTERVENTION_TAG
    ensures Deserialize(Serialize(InterventionEvent(i))) == Some(InterventionEvent(i))
  {
  }

  lemma StatusRoundTrip(st: DeviceStatus)
    requires st.eventType == DEVICE_STATUS_TAG
    ensures Deserialize(Serialize(StatusEvent(st))) == Some(StatusEvent(st))
  {
  }

  lemma SummaryRoundTrip(sm: DailySummary)
    requires sm.eventType == DAILY_SUMMARY_TAG
    ensures Deserialize(Serialize(SummaryEvent(sm))) == Some(SummaryEvent(sm))
  {
    TotalsRoundTrip(sm.appTotals);
  }

  // ---------------------------------------------------------------------
  // The client object

  /** The address of an older server; a stored copy of it is ignored. */
  const LEGACY_URL := "http://35.86.154.191:8080/"

  /** `getBaseUrl` given the stored preference: a stored URL that is set,
      non-empty and not the legacy address, else the build's default. */
  function ResolveBaseUrl(stored: Option<string>, build: BuildConfig): string
  {
    if stored.Some? && stored.value != "" && stored.value != LEGACY_URL then stored.value
    else GetServerUrl(build)
  }

  /** The stored URL is used exactly when it is usable; otherwise the build
      decides. */
  lemma BaseUrlChoice(stored: Option<string>, build: BuildConfig)
    ensures stored.Some? && stored.value != "" && stored.value != LEGACY_URL <==>
              stored.Some? && ResolveBaseUrl(stored, build) == stored.value && stored.value != LEGACY_URL
                && stored.value != ""
    ensures !(stored.Some? && stored.value != "" && stored.value != LEGACY_URL) ==>
              ResolveBaseUrl(stored, build) == GetServerUrl(build)
    ensures ResolveBaseUrl(stored, build) != ""
  {
    ServerUrlPriority(build);
  }

  /** `getCurrentServerEnvironment` for a URL: the first environment in
      declaration order with that URL, else CUSTOM. */
  function EnvironmentOf(url: string): (e: ServerEnvironment)
    ensures e != CUSTOM ==> Url(e) == url
  {
    if url == Url(PRODUCTION) then PRODUCTION
    else if url == Url(STAGING) then STAGING
    else if url == Url(LOCAL) then LOCAL
    else CUSTOM
  }

  /** Because the three defaults are one address, every default resolves to
      PRODUCTION: picking STAGING or LOCAL reads back as PRODUCTION. Only
      PRODUCTION and CUSTOM read back as themselves. */
  lemma EnvironmentReadBack(e: ServerEnvironment)
    ensures e != CUSTOM ==> EnvironmentOf(Url(e)) == PRODUCTION
    ensures EnvironmentOf(Url(e)) == e <==> e == PRODUCTION || e == CUSTOM
  {
  }

  /** The singleton with its `network_config` preferences. */
  class NetworkClient {
    const build: BuildConfig
    var storedBaseUrl: Option<string>
    var storedEnvironment: Option<string>
    var storedDeviceId: Option<string>

    /** A client over the preferences as an earlier run left them. */
    constructor (build: BuildConfig, storedBaseUrl: Option<string>, storedEnvironment: Option<string>,
                 storedDeviceId: Option<string>)
      ensures this.build == build && this.storedBaseUrl == storedBaseUrl
      ensures this.storedEnvironment == storedEnvironment && this.storedDeviceId == storedDeviceId
    {
      this.build := build;
      this.storedBaseUrl := storedBaseUrl;
      this.storedEnvironment := storedEnvironment;
      this.storedDeviceId := storedDeviceId;
    }

    /** `getBaseUrl`. */
    function GetBaseUrl(): string
      reads this
    {
      ResolveBaseUrl(storedBaseUrl, build)
    }

    /** `setBaseUrl`: stores the URL; a later `GetBaseUrl` returns it when it
        is non-empty and not the legacy address. */
    method SetBaseUrl(url: string)
      modifies this
      ensures storedBaseUrl == Some(url)
      ensures storedEnvironment == old(storedEnvironment) && storedDeviceId == old(storedDeviceId)
      ensures url != "" && url != LEGACY_URL ==> GetBaseUrl() == url
    {
      storedBaseUrl := Some(url);
    }

    /** `setServerEnvironment`: records the choice; CUSTOM keeps the stored
        URL, any other environment stores its own URL. */
    method SetServerEnvironment(environment: ServerEnvironment)
      modifies this
      ensures storedEnvironment == Some(Name(environment)) && storedDeviceId == old(storedDeviceId)
      ensures environment == CUSTOM ==> storedBaseUrl == old(storedBaseUrl)
      ensures environment != CUSTOM ==> storedBaseUrl == Some(Url(environment))
      ensures environment != CUSTOM ==> GetCurrentServerEnvironment() == PRODUCTION
    {
      storedEnvironment := Some(Name(environment));
      if environment != CUSTOM {
        SetBaseUrl(Url(environment));
      }
    }

    /** `getCurrentServerEnvironment`. */
    function GetCurrentServerEnvironment(): ServerEnvironment
      reads this
    {
      EnvironmentOf(GetBaseUrl())
    }

    /** `getDeviceId` at time `now`. `androidId` is the platform's
        `ANDROID_ID`, `None` when reading it throws. The first call stores
        an id; every later call returns the stored one. */
    method GetDeviceId(androidId: Option<string>, now: int) returns (deviceId: string)
      modifies this
      ensures old(storedDeviceId).Some? ==> deviceId == old(storedDeviceId).value && unchanged(this)
      ensures old(storedDeviceId).None? ==>
                && deviceId == (if androidId.Some? then androidId.value else "device_" + IntToString(now))
                && storedDeviceId == Some(deviceId)
      ensures storedBaseUrl == old(storedBaseUrl) && storedEnvironment == old(storedEnvironment)
    {
      if storedDeviceId.Some? {
        return storedDeviceId.value;
      }
      deviceId := if androidId.Some? then androidId.value else "device_" + IntToString(now);
      storedDeviceId := Some(deviceId);
    }
  }
}
