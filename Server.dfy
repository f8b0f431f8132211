/** The collector (`server.js`): the health endpoint, the single-item and
    batch endpoints, and `insertAnalyticsData`, which writes one row to the
    table chosen by `eventType`. The database is five append-only tables of
    rows; each database call either succeeds or throws, and which one does
    is an input. The rate limiter, the logging and the clock are not
    modelled (the response timestamp is an input). */
module Server {
  import opened Lang
  import opened Json
  import opened Events
  import opened Network

  // ---------------------------------------------------------------------
  // Tables

  /** The five tables, one per `case` of the switch. */
  datatype Table = SessionsTable | TapsTable | InterventionsTable | StatusTable | SummariesTable

  /** The `eventType` string whose `case` writes to `t`. */
  function Tag(t: Table): string
  {
    match t
    case SessionsTable => APP_SESSION_TAG
    case TapsTable => APP_TAP_TAG
    case InterventionsTable => INTERVENTION_TAG
    case StatusTable => DEVICE_STATUS_TAG
    case SummariesTable => DAILY_SUMMARY_TAG
  }

  /** `switch (data.eventType)`: the cases compare with `===`, so only a
      string equal to one of the five tags selects a table; anything else,
      a missing field included, falls to `default`. */
  function TableFor(eventType: Json): (r: Option<Table>)
    ensures r.Some? <==> eventType.JStr? && eventType.s in EVENT_TAGS
    ensures r.Some? ==> eventType == JStr(Tag(r.value))
    ensures forall t :: eventType == JStr(Tag(t)) ==> r == Some(t)
  {
    if eventType == JStr(APP_SESSION_TAG) then Some(SessionsTable)
    else if eventType == JStr(APP_TAP_TAG) then Some(TapsTable)
    else if eventType == JStr(INTERVENTION_TAG) then Some(InterventionsTable)
    else if eventType == JStr(DEVICE_STATUS_TAG) then Some(StatusTable)
    else if eventType == JStr(DAILY_SUMMARY_TAG) then Some(SummariesTable)
    else None
  }

  /** One inserted row: the values bound to `$1`, `$2`, ... of the
      `INSERT`, in the order of its column list. */
  type Row = seq<Json>

  /** The column list of the `INSERT` for `t`, without `created_at`, which
      the database clock fills. */
  function Columns(t: Table): (r: seq<string>)
    ensures |r| >= 2 && r[0] == "device_id" && r[1] == "user_id"
  {
    ["device_id", "user_id"] +
    match t
    case SessionsTable => ["app_name", "package_name", "session_start", "session_end"]
    case TapsTable => ["timestamp", "app_name", "package_name"]
    case InterventionsTable => ["intervention_start", "intervention_end", "app_name", "intervention_type",
                                "video_duration", "required_watch_time", "button_clicked"]
    case StatusTable => ["battery_level", "is_charging", "connection_type", "connection_strength",
                         "app_version", "last_batch_sent"]
    case SummariesTable => ["date", "total_screen_time", "app_totals"]
  }

  /** The row the `case` for `t` inserts: the device and user ids and the
      properties of `data` it reads, one per column, a missing one bound as
      NULL. The `app_totals` column holds the value `JSON.stringify`
      encodes. */
  function RowFor(t: Table, deviceId: Json, data: Json, userId: Json): (r: Row)
    ensures |r| == |Columns(t)| && r[0] == deviceId && r[1] == userId
  {
    [deviceId, userId] +
    match t
    case SessionsTable =>
      [Get(data, "appName"), Get(data, "packageName"), Get(data, "sessionStart"), Get(data, "sessionEnd")]
    case TapsTable =>
      [Get(data, "timestamp"), Get(data, "appName"), Get(data, "packageName")]
    case InterventionsTable =>
      [Get(data, "interventionStart"), Get(data, "interventionEnd"), Get(data, "appName"), Get(data, "interventionType"),
       Get(data, "videoDuration"), Get(data, "requiredWatchTime"), Get(data, "buttonClicked")]
    case StatusTable =>
      [Get(data, "batteryLevel"), Get(data, "isCharging"), Get(data, "connectionType"), Get(data, "connectionStrength"),
       Get(data, "appVersion"), Get(data, "lastBatchSent")]
    case SummariesTable =>
      [Get(data, "date"), Get(data, "totalScreenTime"), Get(data, "appTotals")]
  }

  /** The database: the rows of each table in insertion order. */
  datatype Db = Db(appSessions: seq<Row>, appTaps: seq<Row>, interventions: seq<Row>,
                   deviceStatus: seq<Row>, dailySummaries: seq<Row>)

  const EMPTY_DB := Db([], [], [], [], [])

  function Rows(db: Db, t: Table): seq<Row>
  {
    match t
    case SessionsTable => db.appSessions
    case TapsTable => db.appTaps
    case InterventionsTable => db.interventions
    case StatusTable => db.deviceStatus
    case SummariesTable => db.dailySummaries
  }

  /** `INSERT INTO t`: `row` is added at the end of `t`; every other table
      keeps its rows. */
  function Append(db: Db, t: Table, row: Row): (r: Db)
    ensures forall u :: Rows(r, u) == Rows(db, u) + (if u == t then [row] else [])
  {
    match t
    case SessionsTable => db.(appSessions := db.appSessions + [row])
    case TapsTable => db.(appTaps := db.appTaps + [row])
    case InterventionsTable => db.(interventions := db.interventions + [row])
    case StatusTable => db.(deviceStatus := db.deviceStatus + [row])
    case SummariesTable => db.(dailySummaries := db.dailySummaries + [row])
  }

  /** What a successful `insertAnalyticsData` does to the database: an
      unknown tag leaves it as it was. */
  function Insert(db: Db, deviceId: Json, data: Json, userId: Json): (r: Db)
    ensures !(Get(data, "eventType").JStr? && Get(data, "eventType").s in EVENT_TAGS) ==> r == db
  {
    match TableFor(Get(data, "eventType"))
    case None => db
    case Some(t) => Append(db, t, RowFor(t, deviceId, data, userId))
  }

  /** The one table whose tag equals `data.eventType` gains that row, and
      every other table is unchanged. */
  lemma InsertAppendsRow(db: Db, deviceId: Json, data: Json, userId: Json, t: Table)
    ensures Rows(Insert(db, deviceId, data, userId), t) == Rows(db, t) +
              (if Get(data, "eventType") == JStr(Tag(t)) then [RowFor(t, deviceId, data, userId)] else [])
  {
  }

  /** `insertAnalyticsData` throws when the database call does (connecting or
      the query), and when `data` is `null`, since reading `null.eventType`
      is a TypeError. An unknown `eventType` is not an error. */
  predicate Throws(data: Json, dbFails: bool)
  {
    dbFails || data == JNull
  }

  /** Whether the database call for the `i`-th batch item fails; calls past
      the end of `dbFails` succeed. */
  function FailsAt(dbFails: seq<bool>, i: nat): bool
  {
    i < |dbFails| && dbFails[i]
  }

  /** The batch's inserts, one after another, none of them throwing. */
  function InsertEach(db: Db, deviceId: Json, items: seq<Json>, userId: Json): Db
  {
    if items == [] then db
    else Insert(InsertEach(db, deviceId, items[..|items| - 1], userId), deviceId, items[|items| - 1], userId)
  }

  /** The rows the items destined to `t` make, in array order. */
  function RowsFor(t: Table, deviceId: Json, items: seq<Json>, userId: Json): (r: seq<Row>)
    ensures |r| <= |items|
    ensures forall row :: row in r ==>
              |row| >= 2 && row[0] == deviceId && row[1] == userId
  {
    if items == [] then []
    else
      var data := items[|items| - 1];
      RowsFor(t, deviceId, items[..|items| - 1], userId)
        + (if Get(data, "eventType") == JStr(Tag(t)) then [RowFor(t, deviceId, data, userId)] else [])
  }

  /** A run of inserts appends to each table exactly the rows of the items
      with its tag, in array order, each with the batch's device and user
      ids. */
  lemma {:induction false} InsertEachAppends(db: Db, deviceId: Json, items: seq<Json>, userId: Json, t: Table)
    ensures Rows(InsertEach(db, deviceId, items, userId), t) == Rows(db, t) + RowsFor(t, deviceId, items, userId)
  {
    if items != [] {
      InsertEachAppends(db, deviceId, items[..|items| - 1], userId, t);
      InsertAppendsRow(InsertEach(db, deviceId, items[..|items| - 1], userId), deviceId, items[|items| - 1], userId, t);
    }
  }

  /** One more item is one more insert. */
  lemma InsertEachStep(db: Db, deviceId: Json, items: seq<Json>, i: nat, userId: Json)
    requires i < |items|
    ensures InsertEach(db, deviceId, items[..i + 1], userId)
            == Insert(InsertEach(db, deviceId, items[..i], userId), deviceId, items[i], userId)
  {
    assert items[..i + 1][..i] == items[..i];
  }

  /** Index of the first batch item whose insert throws, or the length. */
  function FirstThrow(items: seq<Json>, dbFails: seq<bool>): (k: nat)
    ensures k <= |items|
    ensures forall j :: 0 <= j < k ==> !Throws(items[j], FailsAt(dbFails, j))
    ensures k < |items| ==> Throws(items[k], FailsAt(dbFails, k))
  {
    FirstThrowFrom(items, dbFails, 0)
  }

  function FirstThrowFrom(items: seq<Json>, dbFails: seq<bool>, i: nat): (k: nat)
    requires i <= |items|
    ensures i <= k <= |items|
    ensures forall j :: i <= j < k ==> !Throws(items[j], FailsAt(dbFails, j))
    ensures k < |items| ==> Throws(items[k], FailsAt(dbFails, k))
    decreases |items| - i
  {
    if i == |items| || Throws(items[i], FailsAt(dbFails, i)) then i
    else FirstThrowFrom(items, dbFails, i + 1)
  }

  // ---------------------------------------------------------------------
  // Requests and responses

  /** Status code and JSON body of a response. */
  datatype Response = Response(status: nat, success: bool, message: string, timestamp: Option<int>)

  const INTERNAL_ERROR := Response(500, false, "Internal server error", None)

  /** The batch request passes the check: `deviceId` truthy and `data` a
      (truthy) array. */
  predicate ValidBatch(body: Json)
  {
    !(Falsy(Get(body, "deviceId")) || Falsy(Get(body, "data")) || !Get(body, "data").JArr?)
  }

  function BatchMessage(count: nat): string
  {
    "Batch of " + NatToString(count) + " items processed successfully"
  }

  /** The collector, holding its database. */
  class AnalyticsServer {
    var db: Db

    constructor ()
      ensures db == EMPTY_DB
    {
      db := EMPTY_DB;
    }

    /** `GET /api/health`. */
    method Health(now: int) returns (response: Response)
      ensures response.status == 200 && response.success && response.timestamp == Some(now)
    {
      response := Response(200, true, "Server is running", Some(now));
    }

    /** `insertAnalyticsData`: one row into the table `data.eventType`
        selects, nothing for any other value. Returns whether it threw. */
    method InsertAnalyticsData(deviceId: Json, data: Json, userId: Json, dbFails: bool) returns (threw: bool)
      modifies this
      ensures threw <==> Throws(data, dbFails)
      ensures db == (if threw then old(db) else Insert(old(db), deviceId, data, userId))
    {
      if dbFails || data == JNull {
        return true;
      }
      threw := false;
      var table := TableFor(Get(data, "eventType"));
      if table.Some? {
        db := Append(db, table.value, RowFor(table.value, deviceId, data, userId));
      }
    }

    /** `POST /api/analytics/data`: the device id comes from the
        `X-Device-ID` header (`None` when absent) and the user id is always
        null. */
    method PostData(deviceIdHeader: Option<string>, body: Json, dbFails: bool, now: int) returns (response: Response)
      modifies this
      ensures deviceIdHeader == None || deviceIdHeader == Some("") ==>
                response == Response(400, false, "Device ID is required", None) && db == old(db)
      ensures deviceIdHeader != None && deviceIdHeader != Some("") ==>
                if Throws(body, dbFails) then response == INTERNAL_ERROR && db == old(db)
                else response == Response(200, true, "Data received successfully", Some(now))
                     && db == Insert(old(db), JStr(deviceIdHeader.value), body, JNull)
    {
      var deviceId := if deviceIdHeader.Some? then JStr(deviceIdHeader.value) else JNull;
      if Falsy(deviceId) {
        return Response(400, false, "Device ID is required", None);
      }
      var threw := InsertAnalyticsData(deviceId, body, JNull, dbFails);
      if threw {
        return INTERNAL_ERROR;
      }
      response := Response(200, true, "Data received successfully", Some(now));
    }

    /** `POST /api/analytics/batch`: after the format check the items are
        inserted one at a time, in array order, with the body's `deviceId`
        and `userId`. The first insert that throws ends the request with 500;
        the rows inserted before it stay. `dbFails[i]` says whether the
        database call for item `i` fails. */
    method PostBatch(body: Json, dbFails: seq<bool>, now: int) returns (response: Response)
      modifies this
      ensures !ValidBatch(body) ==> response == Response(400, false, "Invalid batch data format", None) && db == old(db)
      ensures ValidBatch(body) ==>
                var items := Get(body, "data").items;
                var k := FirstThrow(items, dbFails);
                && db == InsertEach(old(db), Get(body, "deviceId"), items[..k], Get(body, "userId"))
                && response == if k == |items| then Response(200, true, BatchMessage(|items|), Some(now)) else INTERNAL_ERROR
    {
      var deviceId, userId, data := Get(body, "deviceId"), Get(body, "userId"), Get(body, "data");
      if Falsy(deviceId) || Falsy(data) || !data.JArr? {
        return Response(400, false, "Invalid batch data format", None);
      }
      var items := data.items;
      var i := 0;
      while i < |items|
        invariant i <= FirstThrow(items, dbFails) <= |items|
        invariant db == InsertEach(old(db), deviceId, items[..i], userId)
      {
        var threw := InsertAnalyticsData(deviceId, items[i], userId, FailsAt(dbFails, i));
        if threw {
          assert FirstThrow(items, dbFails) == i;
          return INTERNAL_ERROR;
        }
        InsertEachStep(old(db), deviceId, items, i, userId);
        i := i + 1;
      }
      assert items[..i] == items && FirstThrow(items, dbFails) == i;
      response := Response(200, true, BatchMessage(|items|), Some(now));
    }
  }

  // ---------------------------------------------------------------------
  // What the app's records become

  /** The table the variant of `d` belongs in. */
  function TableOf(d: AnalyticsData): (t: Table)
    ensures Tag(t) == DefaultTag(d)
  {
    match d
    case SessionEvent(_) => SessionsTable
    case TapEvent(_) => TapsTable
    case InterventionEvent(_) => InterventionsTable
    case StatusEvent(_) => StatusTable
    case SummaryEvent(_) => SummariesTable
  }

  function NullableNum(v: Option<int>): Json
  {
    if v.Some? then JNum(v.value) else JNull
  }

  /** The row a record should become, read off the record's own fields:
      each column holds the field of the same meaning, and an absent
      intervention field is NULL. */
  function StoredRow(d: AnalyticsData, deviceId: Json, userId: Json): (r: Row)
    ensures |r| == |Columns(TableOf(d))| && r[0] == deviceId && r[1] == userId
  {
    [deviceId, userId] +
    match d
    case SessionEvent(s) =>
      [JStr(s.appName), JStr(s.packageName), JTime(s.sessionStart), JTime(s.sessionEnd)]
    case TapEvent(tp) =>
      [JTime(tp.timestamp), JStr(tp.appName), JStr(tp.packageName)]
    case InterventionEvent(i) =>
      [JTime(i.interventionStart), JTime(i.interventionEnd), JStr(i.appName), JStr(i.interventionType),
       NullableNum(i.videoDuration), NullableNum(i.requiredWatchTime), JStr(i.buttonClicked)]
    case StatusEvent(st) =>
      [JNum(st.batteryLevel), JBool(st.isCharging), JStr(st.connectionType), JStr(st.connectionStrength),
       JStr(st.appVersion), JTime(st.lastBatchSent)]
    case SummaryEvent(sm) =>
      [JStr(sm.date), JNum(sm.totalScreenTime), TotalsJson(sm.appTotals)]
  }

  /** A serialized record with its variant's tag selects its variant's
      table, and the row the server builds from it is the row its fields
      call for. */
  lemma SerializedRecordRow(d: AnalyticsData, deviceId: Json, userId: Json)
    requires HasDefaultTag(d)
    ensures TableFor(Get(Serialize(d), "eventType")) == Some(TableOf(d))
    ensures forall t :: Get(Serialize(d), "eventType") == JStr(Tag(t)) <==> t == TableOf(d)
    ensures RowFor(TableOf(d), deviceId, Serialize(d), userId) == StoredRow(d, deviceId, userId)
  {
    match d
    case SessionEvent(s) => SessionRow(s, deviceId, userId);
    case TapEvent(tp) => TapRow(tp, deviceId, userId);
    case InterventionEvent(i) => InterventionRow(i, deviceId, userId);
    case StatusEvent(st) => StatusRow(st, deviceId, userId);
    case SummaryEvent(sm) => SummaryRow(sm, deviceId, userId);
  }

  lemma SessionRow(s: AppSession, deviceId: Json, userId: Json)
    ensures var d := SessionEvent(s);
      RowFor(TableOf(d), deviceId, Serialize(d), userId) == StoredRow(d, deviceId, userId)
  {
    var j := Serialize(SessionEvent(s));
    assert Get(j, "appName") == JStr(s.appName) && Get(j, "packageName") == JStr(s.packageName);
    assert Get(j, "sessionStart") == JTime(s.sessionStart) && Get(j, "sessionEnd") == JTime(s.sessionEnd);
  }

  lemma TapRow(tp: AppTap, deviceId: Json, userId: Json)
    ensures var d := TapEvent(tp);
      RowFor(TableOf(d), deviceId, Serialize(d), userId) == StoredRow(d, deviceId, userId)
  {
    var j := Serialize(TapEvent(tp));
    assert Get(j, "timestamp") == JTime(tp.timestamp);
    assert Get(j, "appName") == JStr(tp.appName) && Get(j, "packageName") == JStr(tp.packageName);
  }

  lemma InterventionRow(i: Intervention, deviceId: Json, userId: Json)
    ensures var d := InterventionEvent(i);
      RowFor(TableOf(d), deviceId, Serialize(d), userId) == StoredRow(d, deviceId, userId)
  {
    InterventionFields(i);
  }

  /** The properties the server reads from a serialized intervention. */
  lemma InterventionFields(i: Intervention)
    ensures var j := Serialize(InterventionEvent(i));
      && Get(j, "interventionStart") == JTime(i.interventionStart)
      && Get(j, "interventionEnd") == JTime(i.interventionEnd)
      && Get(j, "appName") == JStr(i.appName) && Get(j, "interventionType") == JStr(i.interventionType)
      && Get(j, "buttonClicked") == JStr(i.buttonClicked)
      && Get(j, "videoDuration") == NullableNum(i.videoDuration)
      && Get(j, "requiredWatchTime") == NullableNum(i.requiredWatchTime)
  {
    var j := Serialize(InterventionEvent(i));
    InterventionKeys(i);
    var required := map["eventType" := JStr(i.eventType), "interventionStart" := JTime(i.interventionStart),
                        "interventionEnd" := JTime(i.interventionEnd), "appName" := JStr(i.appName),
                        "interventionType" := JStr(i.interventionType), "buttonClicked" := JStr(i.buttonClicked)];
    var withVideo := if i.videoDuration.Some? then required["videoDuration" := JNum(i.videoDuration.value)] else required;
    assert j.fields == if i.requiredWatchTime.Some? then withVideo["requiredWatchTime" := JNum(i.requiredWatchTime.value)] else withVideo;
  }

  lemma StatusRow(st: DeviceStatus, deviceId: Json, userId: Json)
    ensures var d := StatusEvent(st);
      RowFor(TableOf(d), deviceId, Serialize(d), userId) == StoredRow(d, deviceId, userId)
  {
    var j := Serialize(StatusEvent(st));
    assert Get(j, "batteryLevel") == JNum(st.batteryLevel) && Get(j, "isCharging") == JBool(st.isCharging);
    assert Get(j, "connectionType") == JStr(st.connectionType);
    assert Get(j, "connectionStrength") == JStr(st.connectionStrength);
    assert Get(j, "appVersion") == JStr(st.appVersion) && Get(j, "lastBatchSent") == JTime(st.lastBatchSent);
  }

  lemma SummaryRow(sm: DailySummary, deviceId: Json, userId: Json)
    ensures var d := SummaryEvent(sm);
      RowFor(TableOf(d), deviceId, Serialize(d), userId) == StoredRow(d, deviceId, userId)
  {
    var j := Serialize(SummaryEvent(sm));
    assert Get(j, "date") == JStr(sm.date) && Get(j, "totalScreenTime") == JNum(sm.totalScreenTime);
    assert Get(j, "appTotals") == TotalsJson(sm.appTotals);
  }

  /** Inserting a serialized record appends the row its fields call for to
      its variant's table. */
  lemma SerializedRecordLands(db: Db, deviceId: Json, d: AnalyticsData, userId: Json)
    requires HasDefaultTag(d)
    ensures Insert(db, deviceId, Serialize(d), userId) == Append(db, TableOf(d), StoredRow(d, deviceId, userId))
  {
    SerializedRecordRow(d, deviceId, userId);
  }

  /** `sendBatchData`'s request body: the device id and the serialized
      records; Gson leaves out the null `userId`. */
  function BatchBody(deviceId: string, dataList: seq<AnalyticsData>, timestamp: int): Json
  {
    JObj(map["deviceId" := JStr(deviceId), "data" := JArr(SerializeAll(dataList)), "timestamp" := JTime(timestamp)])
  }

  function SerializeAll(dataList: seq<AnalyticsData>): (r: seq<Json>)
    ensures |r| == |dataList| && forall i :: 0 <= i < |r| ==> r[i] == Serialize(dataList[i])
  {
    seq(|dataList|, i requires 0 <= i < |dataList| => Serialize(dataList[i]))
  }

  /** The rows a list of records should become in table `t`, in order. */
  function StoredRows(t: Table, deviceId: Json, dataList: seq<AnalyticsData>, userId: Json): seq<Row>
  {
    if dataList == [] then []
    else
      var d := dataList[|dataList| - 1];
      StoredRows(t, deviceId, dataList[..|dataList| - 1], userId)
        + (if TableOf(d) == t then [StoredRow(d, deviceId, userId)] else [])
  }

  /** The rows the server makes of serialized records are the rows the
      records call for. */
  lemma {:induction false} RowsForSerialized(t: Table, deviceId: Json, dataList: seq<AnalyticsData>, userId: Json)
    requires forall d :: d in dataList ==> HasDefaultTag(d)
    ensures RowsFor(t, deviceId, SerializeAll(dataList), userId) == StoredRows(t, deviceId, dataList, userId)
  {
    if dataList != [] {
      var n := |dataList| - 1;
      var d := dataList[n];
      assert SerializeAll(dataList)[..n] == SerializeAll(dataList[..n]);
      RowsForSerialized(t, deviceId, dataList[..n], userId);
      assert d in dataList;
      SerializedRecordRow(d, deviceId, userId);
    }
  }

  /** Serialized records are never `null`, so only a failing database call
      can stop a batch of them. */
  lemma {:induction false} SerializedNeverThrows(dataList: seq<AnalyticsData>)
    ensures FirstThrow(SerializeAll(dataList), []) == |dataList|
  {
  }

  /** A batch body the app builds with a device id passes the format check. */
  lemma BatchBodyValid(deviceId: string, dataList: seq<AnalyticsData>, timestamp: int)
    requires deviceId != ""
    ensures ValidBatch(BatchBody(deviceId, dataList, timestamp))
    ensures Get(BatchBody(deviceId, dataList, timestamp), "data").items == SerializeAll(dataList)
    ensures Get(BatchBody(deviceId, dataList, timestamp), "userId") == JNull
    ensures Get(BatchBody(deviceId, dataList, timestamp), "deviceId") == JStr(deviceId)
  {
    var body := BatchBody(deviceId, dataList, timestamp);
    assert Get(body, "deviceId") == JStr(deviceId);
    assert Get(body, "data") == JArr(SerializeAll(dataList));
  }

  /** End to end: a batch the app sends with a device id passes the format
      check, and when no database call fails every record is stored, each
      table gaining exactly its variant's records in list order, with a
      NULL user id. */
  lemma AppBatchIsStored(db: Db, deviceId: string, dataList: seq<AnalyticsData>, timestamp: int, t: Table)
    requires deviceId != ""
    requires forall d :: d in dataList ==> HasDefaultTag(d)
    ensures var body := BatchBody(deviceId, dataList, timestamp);
      && ValidBatch(body)
      && FirstThrow(Get(body, "data").items, []) == |dataList|
      && Rows(InsertEach(db, Get(body, "deviceId"), Get(body, "data").items, Get(body, "userId")), t)
         == Rows(db, t) + StoredRows(t, JStr(deviceId), dataList, JNull)
  {
    BatchBodyValid(deviceId, dataList, timestamp);
    SerializedNeverThrows(dataList);
    InsertEachAppends(db, JStr(deviceId), SerializeAll(dataList), JNull, t);
    RowsForSerialized(t, JStr(deviceId), dataList, JNull);
  }

  /** A batch whose second item is `null` fails with 500 after the first
      item's row was stored: partial success is reported as failure. */
  lemma NullItemAfterRecord(d: AnalyticsData, deviceId: Json, userId: Json)
    requires HasDefaultTag(d)
    ensures var items := [Serialize(d), JNull];
      && FirstThrow(items, []) == 1
      && Rows(InsertEach(EMPTY_DB, deviceId, items[..1], userId), TableOf(d)) == [StoredRow(d, deviceId, userId)]
  {
    var items := [Serialize(d), JNull];
    assert !Throws(items[0], FailsAt([], 0)) && Throws(items[1], FailsAt([], 1));
    assert FirstThrowFrom(items, [], 0) == FirstThrowFrom(items, [], 1) == 1;
    assert items[..1] == [Serialize(d)] && [Serialize(d)][..0] == [];
    SerializedRecordLands(EMPTY_DB, deviceId, d, userId);
  }
}
