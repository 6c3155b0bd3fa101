/**
 * The local store (`storage.Manager`): a SQLite database with a sessions
 * table (unique by name), a request log and a screenshot table. The
 * database is modelled as the tables' contents; every SQL statement may
 * fail, and that failure is given to the operation as a `fault`. `now` is
 * the database clock (`CURRENT_TIMESTAMP`), in seconds.
 */
module Storage {
  import opened Common
  import opened BrowserData
  import opened SqlRows

  /** The `data` column: a marshalled session record, or text that does not decode as one. */
  datatype Payload = Encoded(record: SessionRecord) | Undecodable(reason: string)

  datatype SessionRow = SessionRow(id: nat, name: string, data: Payload, createdAt: int, updatedAt: int)

  datatype RequestLog = RequestLog(
    id: nat, url: string, httpMethod: string, headers: string, body: string, response: string,
    status: int, durationMs: int, timestamp: int)

  datatype Screenshot = Screenshot(
    id: nat, name: string, url: string, filePath: string, size: int, width: int, height: int,
    description: string, createdAt: int)

  /** `Session` as a listing reports it: no data when the stored text does not decode. */
  datatype Session = Session(id: nat, name: string, data: Option<SessionRecord>, createdAt: int, updatedAt: int)

  /** The database's contents, with the next AUTOINCREMENT id of each table. */
  datatype Tables = Tables(
    sessions: map<string, SessionRow>, logs: seq<RequestLog>, screenshots: seq<Screenshot>,
    nextSessionId: nat, nextLogId: nat, nextScreenshotId: nat)

  const EmptyTables := Tables(map[], [], [], 1, 1, 1)

  /** Rows are filed under their own name and every id was handed out by its table's counter. */
  predicate TablesValid(t: Tables) {
    && (forall n :: n in t.sessions ==> t.sessions[n].name == n && t.sessions[n].id < t.nextSessionId)
    && (forall i :: 0 <= i < |t.logs| ==> t.logs[i].id < t.nextLogId)
    && (forall i :: 0 <= i < |t.screenshots| ==> t.screenshots[i].id < t.nextScreenshotId)
  }

  /** The file system's and the driver's answers while the store initialises. */
  datatype StoreSetup = StoreSetup(mkdir: Outcome, openDatabase: Outcome, createTables: Outcome)

  /** The error `Init` reports for a setup: the first step that fails, named. */
  function InitError(setup: StoreSetup): (r: Option<string>)
    ensures r.None? <==> setup.mkdir.Pass? && setup.openDatabase.Pass? && setup.createTables.Pass?
  {
    if setup.mkdir.Fail? then Some("failed to create data directory: " + setup.mkdir.error)
    else if setup.openDatabase.Fail? then Some("failed to open database: " + setup.openDatabase.error)
    else if setup.createTables.Fail? then Some("failed to create tables: " + setup.createTables.error)
    else None
  }

  /** The answers of the three statements `CleanupOldData` runs. */
  datatype CleanupFaults = CleanupFaults(deleteLogs: Option<string>, queryScreenshots: Option<string>,
                                         deleteScreenshots: Option<string>)

  function UpdatedAt(row: SessionRow): int { row.updatedAt }
  function SessionUpdated(s: Session): int { s.updatedAt }
  function LoggedAt(l: RequestLog): int { l.timestamp }
  function TakenAt(s: Screenshot): int { s.createdAt }

  /** The listing entry of a row. */
  function Listed(row: SessionRow): (s: Session)
    ensures s.id == row.id && s.name == row.name && s.createdAt == row.createdAt && s.updatedAt == row.updatedAt
    ensures s.data.Some? <==> row.data.Encoded?
    ensures row.data.Encoded? ==> s.data.value == row.data.record
  {
    Session(row.id, row.name, if row.data.Encoded? then Some(row.data.record) else None, row.createdAt, row.updatedAt)
  }

  function ListedAll(rows: seq<SessionRow>): (r: seq<Session>)
    ensures |r| == |rows| && forall i :: 0 <= i < |rows| ==> r[i] == Listed(rows[i])
  {
    seq(|rows|, i requires 0 <= i < |rows| => Listed(rows[i]))
  }

  /** The rows a cleanup keeps: not older than the cutoff. */
  function LogKept(cutoff: int): RequestLog -> bool { (l: RequestLog) => l.timestamp >= cutoff }
  function ScreenshotKept(cutoff: int): Screenshot -> bool { (s: Screenshot) => s.createdAt >= cutoff }

  /** The screenshot rows a cleanup selects: older than the cutoff. */
  function ScreenshotOld(cutoff: int): Screenshot -> bool { (s: Screenshot) => s.createdAt < cutoff }

  /** The screenshots whose files a cleanup removes: older than the cutoff, and readable. */
  function Expired(cutoff: int, scanOk: Screenshot -> bool): Screenshot -> bool {
    (s: Screenshot) => s.createdAt < cutoff && scanOk(s)
  }

  function Paths(shots: seq<Screenshot>): (paths: seq<string>)
    ensures |paths| == |shots| && forall i :: 0 <= i < |shots| ==> paths[i] == shots[i].filePath
  {
    seq(|shots|, i requires 0 <= i < |shots| => shots[i].filePath)
  }

  /** The sessions table as a query reads it: each row once. */
  method SessionTable(sessions: map<string, SessionRow>) returns (table: seq<SessionRow>)
    requires forall n :: n in sessions ==> sessions[n].name == n
    ensures forall n :: n in sessions ==> sessions[n] in table
    ensures forall x :: x in table ==> x.name in sessions && sessions[x.name] == x
    ensures |table| == |sessions|
    ensures forall i, j :: 0 <= i < j < |table| ==> table[i].name != table[j].name
  {
    var order := KeyOrder(sessions);
    table := seq(|order|, i requires 0 <= i < |order| => sessions[order[i]]);
    forall n | n in sessions ensures sessions[n] in table {
      var k :| 0 <= k < |order| && order[k] == n;
      assert table[k] == sessions[n];
    }
  }

  /**
   * The row loop of `ListSessions`: each row that scans becomes a listing
   * entry, in query order; a row that does not scan is skipped.
   */
  method ScanSessions(rows: seq<SessionRow>, scanOk: SessionRow -> bool) returns (listed: seq<Session>)
    ensures listed == ListedAll(Where(rows, scanOk))
  {
    listed := [];
    var i := 0;
    while i < |rows|
      invariant 0 <= i <= |rows|
      invariant listed == ListedAll(Where(rows[..i], scanOk))
    {
      ListOneMore(rows, i, scanOk);
      if scanOk(rows[i]) {
        // A row whose data does not decode is still listed, without data.
        listed := listed + [Listed(rows[i])];
      }
      i := i + 1;
    }
    assert rows[..i] == rows;
  }

  /** One more row read by the listing loop adds its entry exactly when it scans. */
  lemma ListOneMore(rows: seq<SessionRow>, i: nat, scanOk: SessionRow -> bool)
    requires i < |rows|
    ensures ListedAll(Where(rows[..i + 1], scanOk)) ==
      ListedAll(Where(rows[..i], scanOk)) + (if scanOk(rows[i]) then [Listed(rows[i])] else [])
  {
    assert rows[..i + 1] == rows[..i] + [rows[i]];
    WhereAppend(rows[..i], rows[i], scanOk);
  }

  /**
   * The path-collecting loop of `CleanupOldData`: the file of every
   * screenshot row older than the cutoff, in table order, skipping rows
   * that do not scan.
   */
  method CollectExpired(shots: seq<Screenshot>, cutoff: int, scanOk: Screenshot -> bool) returns (files: seq<string>)
    ensures files == Paths(Where(shots, Expired(cutoff, scanOk)))
  {
    var rows := Where(shots, ScreenshotOld(cutoff));
    files := [];
    var i := 0;
    while i < |rows|
      invariant 0 <= i <= |rows|
      invariant files == Paths(Where(rows[..i], scanOk))
    {
      ScanOneMore(rows, i, scanOk);
      if scanOk(rows[i]) {
        files := files + [rows[i].filePath];
      }
      i := i + 1;
    }
    assert rows[..i] == rows;
    WhereOfWhere(shots, cutoff, scanOk);
  }

  /** One more row read by the path loop adds its path exactly when it scans. */
  lemma ScanOneMore(rows: seq<Screenshot>, i: nat, scanOk: Screenshot -> bool)
    requires i < |rows|
    ensures Paths(Where(rows[..i + 1], scanOk)) ==
      Paths(Where(rows[..i], scanOk)) + (if scanOk(rows[i]) then [rows[i].filePath] else [])
  {
    assert rows[..i + 1] == rows[..i] + [rows[i]];
    WhereAppend(rows[..i], rows[i], scanOk);
    if scanOk(rows[i]) {
      PathsAppend(Where(rows[..i], scanOk), rows[i]);
    } else {
      assert Paths(Where(rows[..i], scanOk)) + [] == Paths(Where(rows[..i], scanOk));
    }
  }

  /** The paths of a list extended by one screenshot end with that screenshot's path. */
  lemma PathsAppend(shots: seq<Screenshot>, s: Screenshot)
    ensures Paths(shots + [s]) == Paths(shots) + [s.filePath]
  {
    assert |Paths(shots + [s])| == |Paths(shots) + [s.filePath]|;
  }

  lemma LogIdsStayBelow(ls: seq<RequestLog>, p: RequestLog -> bool, bound: nat)
    requires forall i :: 0 <= i < |ls| ==> ls[i].id < bound
    ensures forall i :: 0 <= i < |Where(ls, p)| ==> Where(ls, p)[i].id < bound
  {
    var kept := Where(ls, p);
    forall i | 0 <= i < |kept| ensures kept[i].id < bound {
      assert kept[i] in ls;
    }
  }

  lemma ScreenshotIdsStayBelow(ss: seq<Screenshot>, p: Screenshot -> bool, bound: nat)
    requires forall i :: 0 <= i < |ss| ==> ss[i].id < bound
    ensures forall i :: 0 <= i < |Where(ss, p)| ==> Where(ss, p)[i].id < bound
  {
    var kept := Where(ss, p);
    forall i | 0 <= i < |kept| ensures kept[i].id < bound {
      assert kept[i] in ss;
    }
  }

  class Manager {
    /** Whether a database handle is held. */
    var open: bool
    var sessions: map<string, SessionRow>
    var logs: seq<RequestLog>
    var screenshots: seq<Screenshot>
    var nextSessionId: nat
    var nextLogId: nat
    var nextScreenshotId: nat

    function Contents(): Tables
      reads this
    {
      Tables(sessions, logs, screenshots, nextSessionId, nextLogId, nextScreenshotId)
    }

    predicate Valid()
      reads this
    {
      TablesValid(Contents())
    }

    /** `New`: no database handle yet. */
    constructor ()
      ensures !open && Contents() == EmptyTables && Valid()
    {
      open := false;
      sessions, logs, screenshots := map[], [], [];
      nextSessionId, nextLogId, nextScreenshotId := 1, 1, 1;
    }

    /**
     * `Init`: creates the data directory, opens the database file (whose
     * contents are `existing`) and creates the tables that are missing.
     * A failure before the open leaves no handle; a failure to create the
     * tables leaves the handle open.
     */
    method Init(setup: StoreSetup, existing: Tables) returns (err: Option<string>)
      requires Valid() && TablesValid(existing)
      modifies this
      ensures Valid()
      ensures err == InitError(setup)
      ensures setup.mkdir.Fail? || setup.openDatabase.Fail? ==> unchanged(this)
      ensures setup.mkdir.Pass? && setup.openDatabase.Pass? ==> open && Contents() == existing
    {
      if setup.mkdir.Fail? {
        return Some("failed to create data directory: " + setup.mkdir.error);
      }
      if setup.openDatabase.Fail? {
        return Some("failed to open database: " + setup.openDatabase.error);
      }
      open := true;
      sessions, logs, screenshots := existing.sessions, existing.logs, existing.screenshots;
      nextSessionId, nextLogId, nextScreenshotId := existing.nextSessionId, existing.nextLogId, existing.nextScreenshotId;
      if setup.createTables.Fail? {
        return Some("failed to create tables: " + setup.createTables.error);
      }
      return None;
    }

    /** `Close`: closes the handle if one is held; the handle's answer is returned. */
    method Close(closing: Outcome) returns (err: Outcome, steps: seq<Teardown>)
      ensures open ==> steps == [CloseDatabase] && err == closing
      ensures !open ==> steps == [] && err == Pass
    {
      if open {
        return closing, [CloseDatabase];
      }
      return Pass, [];
    }

    /**
     * `SaveSession`: an upsert by name (`INSERT OR REPLACE`). The old row
     * under the name, if any, is replaced by a new one with a new id and
     * both timestamps set to now; no other row changes. Failure is reported
     * in the result, never as an error.
     */
    method SaveSession(name: string, data: SessionData, now: int, fault: Option<string>)
      returns (result: map<string, Json>)
      requires open && Valid()
      modifies this
      ensures Valid() && open
      ensures fault.Some? ==>
        && result == map["success" := JBool(false), "message" := JStr("Failed to save session: " + fault.value)]
        && unchanged(this)
      ensures fault.None? ==>
        && result == map["success" := JBool(true), "message" := JStr("Session saved successfully"), "name" := JStr(name)]
        && sessions == old(sessions)[name := SessionRow(old(nextSessionId), name, Encoded(data.Snapshot()), now, now)]
        && nextSessionId == old(nextSessionId) + 1
        && logs == old(logs) && screenshots == old(screenshots)
        && nextLogId == old(nextLogId) && nextScreenshotId == old(nextScreenshotId)
      ensures fault.None? ==> |sessions| == |old(sessions)| + (if name in old(sessions) then 0 else 1)
    {
      result := map["success" := JBool(false)];
      if fault.Some? {
        result := result["message" := JStr("Failed to save session: " + fault.value)];
        return;
      }
      sessions := sessions[name := SessionRow(nextSessionId, name, Encoded(data.Snapshot()), now, now)];
      nextSessionId := nextSessionId + 1;
      result := result["success" := JBool(true)];
      result := result["message" := JStr("Session saved successfully")];
      result := result["name" := JStr(name)];
    }

    /**
     * `LoadSession`: the record stored under the name. An absent name is
     * "not found"; stored text that does not decode is an error too.
     */
    method LoadSession(name: string, fault: Option<string>) returns (r: Result<SessionRecord>)
      requires open
      ensures fault.Some? ==> r == Err("failed to load session: " + fault.value)
      ensures fault.None? && name !in sessions ==> r == Err("session '" + name + "' not found")
      ensures fault.None? && name in sessions && sessions[name].data.Undecodable? ==>
        r == Err("failed to deserialize session data: " + sessions[name].data.reason)
      ensures r.Ok? <==> fault.None? && name in sessions && sessions[name].data.Encoded?
      ensures r.Ok? ==> r.value == sessions[name].data.record
    {
      if fault.Some? {
        return Err("failed to load session: " + fault.value);
      }
      if name !in sessions {
        return Err("session '" + name + "' not found");
      }
      match sessions[name].data
      case Undecodable(why) => r := Err("failed to deserialize session data: " + why);
      case Encoded(record) => r := Ok(record);
    }

    /**
     * `ListSessions`: every readable row, most recently updated first. A
     * row whose data does not decode is listed without data; a row that
     * cannot be scanned is skipped.
     */
    method ListSessions(fault: Option<string>, scanOk: SessionRow -> bool) returns (r: Result<seq<Session>>)
      requires open && Valid()
      ensures fault.Some? ==> r == Err("failed to query sessions: " + fault.value)
      ensures fault.None? ==> r.Ok? && NewestFirst(r.value, SessionUpdated)
      ensures fault.None? ==> forall n :: n in sessions ==> (Listed(sessions[n]) in r.value <==> scanOk(sessions[n]))
      ensures fault.None? ==> forall s :: s in r.value ==> s.name in sessions && s == Listed(sessions[s.name])
      ensures fault.None? ==> forall i, j :: 0 <= i < j < |r.value| ==> r.value[i].name != r.value[j].name
    {
      if fault.Some? {
        return Err("failed to query sessions: " + fault.value);
      }
      var table := SessionTable(sessions);
      var listed := ScanSessions(SortNewestFirst(table, UpdatedAt), scanOk);
      ListingOfTable(sessions, table, scanOk);
      ListedOnce(sessions, table, scanOk);
      r := Ok(listed);
    }

    /**
     * `DeleteSession`: removes the row under the name; deleting an absent
     * name affects no row and is reported as not found.
     */
    method DeleteSession(name: string, fault: Option<string>) returns (err: Option<string>)
      requires open && Valid()
      modifies this
      ensures Valid()
      ensures fault.Some? ==> err == Some("failed to delete session: " + fault.value) && unchanged(this)
      ensures fault.None? && name !in old(sessions) ==> err == Some("session '" + name + "' not found") && unchanged(this)
      ensures fault.None? && name in old(sessions) ==>
        && err.None?
        && sessions == old(sessions) - {name}
        && logs == old(logs) && screenshots == old(screenshots) && open == old(open)
        && nextSessionId == old(nextSessionId) && nextLogId == old(nextLogId)
        && nextScreenshotId == old(nextScreenshotId)
    {
      if fault.Some? {
        return Some("failed to delete session: " + fault.value);
      }
      if name !in sessions {
        return Some("session '" + name + "' not found");
      }
      sessions := sessions - {name};
      return None;
    }

    /**
     * `LogRequest`: appends one log row stamped now, with the duration
     * (given in nanoseconds) stored as whole milliseconds.
     */
    method LogRequest(url: string, httpMethod: string, headers: string, body: string, response: string,
                      status: int, durationNs: int, now: int, fault: Option<string>) returns (err: Option<string>)
      requires open && Valid()
      modifies this
      ensures Valid()
      ensures fault.Some? ==> err == Some("failed to log request: " + fault.value) && unchanged(this)
      ensures fault.None? ==>
        && err.None?
        && logs == old(logs) + [RequestLog(old(nextLogId), url, httpMethod, headers, body, response, status,
                                           Milliseconds(durationNs), now)]
        && nextLogId == old(nextLogId) + 1
        && sessions == old(sessions) && screenshots == old(screenshots) && open == old(open)
        && nextSessionId == old(nextSessionId) && nextScreenshotId == old(nextScreenshotId)
    {
      if fault.Some? {
        return Some("failed to log request: " + fault.value);
      }
      logs := logs + [RequestLog(nextLogId, url, httpMethod, headers, body, response, status, Milliseconds(durationNs), now)];
      nextLogId := nextLogId + 1;
      return None;
    }

    /**
     * `GetRequestLogs`: at most `limit` readable logs (all of them when the
     * limit is negative), newest first. A log is left out only when it is
     * unreadable or no newer than every log returned.
     */
    method GetRequestLogs(limit: int, fault: Option<string>, scanOk: RequestLog -> bool)
      returns (r: Result<seq<RequestLog>>, ghost read: seq<RequestLog>)
      requires open
      ensures fault.None? ==>
        && r.Ok? && r.value == Where(read, scanOk)
        && NewestFirst(read, LoggedAt) && multiset(read) <= multiset(logs)
        && |read| == (if limit < 0 || limit >= |logs| then |logs| else limit)
        && forall x, y :: x in multiset(logs) - multiset(read) && y in read ==> LoggedAt(y) >= LoggedAt(x)
      ensures fault.Some? ==> r == Err("failed to query request logs: " + fault.value)
      ensures fault.None? ==> r.Ok? && NewestFirst(r.value, LoggedAt)
      ensures fault.None? && limit >= 0 ==> |r.value| <= limit
      ensures fault.None? ==> forall l :: l in r.value ==> l in logs && scanOk(l)
      ensures fault.None? && (limit < 0 || limit >= |logs|) ==> forall l :: l in logs && scanOk(l) ==> l in r.value
      ensures fault.None? ==> forall l, m :: l in logs && scanOk(l) && l !in r.value && m in r.value ==>
        LoggedAt(m) >= LoggedAt(l)
      ensures fault.None? ==> multiset(r.value) <= multiset(logs)
    {
      if fault.Some? {
        return Err("failed to query request logs: " + fault.value), [];
      }
      var sorted := SortNewestFirst(logs, LoggedAt);
      var rows := Limit(sorted, limit);
      var found := ReadRows(rows, scanOk);
      SelectNewest(logs, LoggedAt, limit, scanOk);
      SelectedFewer(logs, LoggedAt, limit, scanOk);
      LimitedRead(logs, LoggedAt, limit);
      read := rows;
      r := Ok(found);
    }

    /** `SaveScreenshot`: appends one screenshot row stamped now. */
    method SaveScreenshot(name: string, url: string, filePath: string, description: string,
                          size: int, width: int, height: int, now: int, fault: Option<string>)
      returns (err: Option<string>)
      requires open && Valid()
      modifies this
      ensures Valid()
      ensures fault.Some? ==> err == Some("failed to save screenshot metadata: " + fault.value) && unchanged(this)
      ensures fault.None? ==>
        && err.None?
        && screenshots == old(screenshots) +
             [Screenshot(old(nextScreenshotId), name, url, filePath, size, width, height, description, now)]
        && nextScreenshotId == old(nextScreenshotId) + 1
        && sessions == old(sessions) && logs == old(logs) && open == old(open)
        && nextSessionId == old(nextSessionId) && nextLogId == old(nextLogId)
    {
      if fault.Some? {
        return Some("failed to save screenshot metadata: " + fault.value);
      }
      screenshots := screenshots + [Screenshot(nextScreenshotId, name, url, filePath, size, width, height, description, now)];
      nextScreenshotId := nextScreenshotId + 1;
      return None;
    }

    /** `GetScreenshots`: at most `limit` readable screenshot rows, newest first. */
    method GetScreenshots(limit: int, fault: Option<string>, scanOk: Screenshot -> bool)
      returns (r: Result<seq<Screenshot>>, ghost read: seq<Screenshot>)
      requires open
      ensures fault.None? ==>
        && r.Ok? && r.value == Where(read, scanOk)
        && NewestFirst(read, TakenAt) && multiset(read) <= multiset(screenshots)
        && |read| == (if limit < 0 || limit >= |screenshots| then |screenshots| else limit)
        && forall x, y :: x in multiset(screenshots) - multiset(read) && y in read ==> TakenAt(y) >= TakenAt(x)
      ensures fault.Some? ==> r == Err("failed to query screenshots: " + fault.value)
      ensures fault.None? ==> r.Ok? && NewestFirst(r.value, TakenAt)
      ensures fault.None? && limit >= 0 ==> |r.value| <= limit
      ensures fault.None? ==> forall s :: s in r.value ==> s in screenshots && scanOk(s)
      ensures fault.None? && (limit < 0 || limit >= |screenshots|) ==>
        forall s :: s in screenshots && scanOk(s) ==> s in r.value
      ensures fault.None? ==> forall s, t :: s in screenshots && scanOk(s) && s !in r.value && t in r.value ==>
        TakenAt(t) >= TakenAt(s)
      ensures fault.None? ==> multiset(r.value) <= multiset(screenshots)
    {
      if fault.Some? {
        return Err("failed to query screenshots: " + fault.value), [];
      }
      var sorted := SortNewestFirst(screenshots, TakenAt);
      var rows := Limit(sorted, limit);
      var found := ReadRows(rows, scanOk);
      SelectNewest(screenshots, TakenAt, limit, scanOk);
      SelectedFewer(screenshots, TakenAt, limit, scanOk);
      LimitedRead(screenshots, TakenAt, limit);
      read := rows;
      r := Ok(found);
    }

    /**
     * `CleanupOldData`: deletes the logs older than `now - maxAge`, then
     * collects the files of the screenshots older than that, removes them
     * (ignoring failures) and deletes those screenshot rows. A failed step
     * ends the cleanup; the steps before it stay done.
     */
    method CleanupOldData(maxAge: int, now: int, faults: CleanupFaults, scanOk: Screenshot -> bool)
      returns (err: Option<string>, removed: seq<string>)
      requires open && Valid()
      modifies this
      ensures Valid() && open == old(open)
      ensures faults.deleteLogs.Some? ==>
        && err == Some("failed to cleanup request logs: " + faults.deleteLogs.value)
        && Contents() == old(Contents()) && removed == []
      ensures faults.deleteLogs.None? && faults.queryScreenshots.Some? ==>
        && err == Some("failed to query old screenshots: " + faults.queryScreenshots.value)
        && Contents() == old(Contents()).(logs := Where(old(logs), LogKept(now - maxAge)))
        && removed == []
      ensures faults.deleteLogs.None? && faults.queryScreenshots.None? ==>
        && removed == Paths(Where(old(screenshots), Expired(now - maxAge, scanOk)))
        && err == (if faults.deleteScreenshots.Some?
                   then Some("failed to cleanup screenshot records: " + faults.deleteScreenshots.value) else None)
        && Contents() == old(Contents()).(
             logs := Where(old(logs), LogKept(now - maxAge)),
             screenshots := if faults.deleteScreenshots.Some? then old(screenshots)
                            else Where(old(screenshots), ScreenshotKept(now - maxAge)))
    {
      var cutoff := now - maxAge;
      removed := [];
      if faults.deleteLogs.Some? {
        return Some("failed to cleanup request logs: " + faults.deleteLogs.value), removed;
      }
      DeleteOldLogs(cutoff);
      if faults.queryScreenshots.Some? {
        return Some("failed to query old screenshots: " + faults.queryScreenshots.value), removed;
      }
      // Every collected file is removed in turn; a failed removal is ignored.
      removed := CollectExpired(screenshots, cutoff, scanOk);
      if faults.deleteScreenshots.Some? {
        return Some("failed to cleanup screenshot records: " + faults.deleteScreenshots.value), removed;
      }
      DeleteOldScreenshots(cutoff);
      return None, removed;
    }

    /** The log statement of a cleanup: removes the log rows older than the cutoff. */
    method DeleteOldLogs(cutoff: int)
      requires Valid()
      modifies this
      ensures Valid() && open == old(open)
      ensures Contents() == old(Contents()).(logs := Where(old(logs), LogKept(cutoff)))
    {
      LogIdsStayBelow(logs, LogKept(cutoff), nextLogId);
      logs := Where(logs, LogKept(cutoff));
    }

    /** The screenshot statement of a cleanup: removes the screenshot rows older than the cutoff. */
    method DeleteOldScreenshots(cutoff: int)
      requires Valid()
      modifies this
      ensures Valid() && open == old(open)
      ensures Contents() == old(Contents()).(screenshots := Where(old(screenshots), ScreenshotKept(cutoff)))
    {
      ScreenshotIdsStayBelow(screenshots, ScreenshotKept(cutoff), nextScreenshotId);
      screenshots := Where(screenshots, ScreenshotKept(cutoff));
    }

    /**
     * `GetStats`: the three row counts, always present (a count whose query
     * fails reads as 0), and the database file's size when it can be read.
     * `failedCounts` names the tables whose count fails.
     */
    method GetStats(failedCounts: set<string>, databaseSize: Option<int>) returns (stats: map<string, Json>)
      requires open
      ensures stats.Keys == {"sessions", "requests", "screenshots"} + (if databaseSize.Some? then {"database_size"} else {})
      ensures stats["sessions"] == JInt(if "sessions" in failedCounts then 0 else |sessions|)
      ensures stats["requests"] == JInt(if "request_logs" in failedCounts then 0 else |logs|)
      ensures stats["screenshots"] == JInt(if "screenshots" in failedCounts then 0 else |screenshots|)
      ensures databaseSize.Some? ==> stats["database_size"] == JInt(databaseSize.value)
    {
      stats := map[];
      var sessionCount := 0;
      if "sessions" !in failedCounts {
        sessionCount := |sessions|;
      }
      stats := stats["sessions" := JInt(sessionCount)];
      var requestCount := 0;
      if "request_logs" !in failedCounts {
        requestCount := |logs|;
      }
      stats := stats["requests" := JInt(requestCount)];
      var screenshotCount := 0;
      if "screenshots" !in failedCounts {
        screenshotCount := |screenshots|;
      }
      stats := stats["screenshots" := JInt(screenshotCount)];
      if databaseSize.Some? {
        stats := stats["database_size" := JInt(databaseSize.value)];
      }
    }
  }

  /**
   * The listing of a table holding exactly the rows of a name-keyed map:
   * newest first, an entry for a stored session exactly when its row is
   * readable, each the entry of the row under its name. That no name is
   * listed twice is `ListedOnce`.
   */
  lemma ListingOfTable(sessions: map<string, SessionRow>, table: seq<SessionRow>, scanOk: SessionRow -> bool)
    requires forall n :: n in sessions ==> sessions[n].name == n && sessions[n] in table
    requires forall x :: x in table ==> x.name in sessions && sessions[x.name] == x
    ensures var listed := ListedAll(Where(SortNewestFirst(table, UpdatedAt), scanOk));
      && NewestFirst(listed, SessionUpdated)
      && (forall n :: n in sessions ==> (Listed(sessions[n]) in listed <==> scanOk(sessions[n])))
      && (forall s :: s in listed ==> s.name in sessions && s == Listed(sessions[s.name]))
  {
    var rows := SortNewestFirst(table, UpdatedAt);
    var kept := Where(rows, scanOk);
    var listed := ListedAll(kept);
    WhereKeepsOrder(rows, scanOk, UpdatedAt);
    forall x ensures x in rows <==> x in table {
      assert x in rows <==> x in multiset(rows);
      assert x in table <==> x in multiset(table);
    }
    forall s | s in listed ensures s.name in sessions && s == Listed(sessions[s.name]) {
      var k :| 0 <= k < |listed| && listed[k] == s;
      assert kept[k] in kept;
    }
    forall n | n in sessions ensures Listed(sessions[n]) in listed <==> scanOk(sessions[n]) {
      if scanOk(sessions[n]) {
        var k :| 0 <= k < |kept| && kept[k] == sessions[n];
        assert listed[k] == Listed(sessions[n]);
      }
      if Listed(sessions[n]) in listed {
        var k :| 0 <= k < |listed| && listed[k] == Listed(sessions[n]);
        assert kept[k] in kept;
      }
    }
  }

  /** A table that holds each name once lists each name at most once. */
  lemma ListedOnce(sessions: map<string, SessionRow>, table: seq<SessionRow>, scanOk: SessionRow -> bool)
    requires forall x :: x in table ==> x.name in sessions && sessions[x.name] == x
    requires forall i, j :: 0 <= i < j < |table| ==> table[i].name != table[j].name
    ensures var listed := ListedAll(Where(SortNewestFirst(table, UpdatedAt), scanOk));
      forall i, j :: 0 <= i < j < |listed| ==> listed[i].name != listed[j].name
  {
    var kept := Where(SortNewestFirst(table, UpdatedAt), scanOk);
    SelectedFewer(table, UpdatedAt, -1, scanOk);
    FewerStayDistinct(kept, table);
    FewerInTable(sessions, kept, table);
    var listed := ListedAll(kept);
    forall i, j | 0 <= i < j < |listed| ensures listed[i].name != listed[j].name {
      assert listed[i].name == kept[i].name && listed[j].name == kept[j].name;
    }
  }

  /** Distinct rows taken from a table of rows filed under their own name have distinct names. */
  lemma FewerInTable(sessions: map<string, SessionRow>, kept: seq<SessionRow>, table: seq<SessionRow>)
    requires forall x :: x in table ==> x.name in sessions && sessions[x.name] == x
    requires multiset(kept) <= multiset(table) && Distinct(kept)
    ensures forall i, j :: 0 <= i < j < |kept| ==> kept[i].name != kept[j].name
  {
    forall i, j | 0 <= i < j < |kept| ensures kept[i].name != kept[j].name {
      assert kept[i] in multiset(kept) && kept[j] in multiset(kept);
      assert kept[i] in table && kept[j] in table;
    }
  }

  /** Selecting the old rows and then the readable ones is selecting the expired ones. */
  lemma {:induction false} WhereOfWhere(shots: seq<Screenshot>, cutoff: int, scanOk: Screenshot -> bool)
    ensures Where(Where(shots, ScreenshotOld(cutoff)), scanOk) == Where(shots, Expired(cutoff, scanOk))
    decreases |shots|
  {
    if shots != [] {
      var front := shots[..|shots| - 1];
      var last := shots[|shots| - 1];
      assert shots == front + [last];
      WhereOfWhere(front, cutoff, scanOk);
      WhereAppend(front, last, ScreenshotOld(cutoff));
      WhereAppend(front, last, Expired(cutoff, scanOk));
      if last.createdAt < cutoff {
        WhereAppend(Where(front, ScreenshotOld(cutoff)), last, scanOk);
      }
    }
  }
}
