/** The client logger (frontend/src/utils/logger.ts): a level filter in front
    of a buffer of the newest 1000 entries.  The build mode (`NODE_ENV`) is
    the `development` flag; the entry time is the `now` parameter. */
module Logging {
  import opened Wrappers
  import opened Text
  import opened Json

  datatype LogLevel = Debug | Info | Warn | Error {
    function Rank(): nat {
      match this
      case Debug => 0
      case Info => 1
      case Warn => 2
      case Error => 3
    }
  }

  datatype LogEntry = LogEntry(level: LogLevel, message: string, data: Option<Json>, timestamp: int)

  const MaxLogs: nat := 1000

  /** The buffer after a push: the newest `MaxLogs` entries. */
  function Capped(logs: seq<LogEntry>): (r: seq<LogEntry>)
    ensures |r| <= MaxLogs
    ensures |logs| <= MaxLogs ==> r == logs
    ensures r == logs[|logs| - |r|..]
  {
    if |logs| > MaxLogs then logs[|logs| - MaxLogs..] else logs
  }

  /** A push keeps the bound, ends with the new entry, and drops at most the
      oldest one. */
  lemma PushKeepsNewest(logs: seq<LogEntry>, e: LogEntry)
    requires |logs| <= MaxLogs
    ensures var r := Capped(logs + [e]);
            |r| <= MaxLogs && r[|r| - 1] == e &&
            (|logs| < MaxLogs ==> r == logs + [e]) &&
            (|logs| == MaxLogs ==> r == logs[1..] + [e])
  {
    var l := logs + [e];
    if |logs| == MaxLogs {
      assert l[|l| - MaxLogs..] == logs[1..] + [e];
    }
  }

  /** The entries at or above a level, in buffer order. */
  function AtLeast(logs: seq<LogEntry>, level: LogLevel): (r: seq<LogEntry>)
    ensures |r| <= |logs|
    ensures forall e :: e in r <==> e in logs && e.level.Rank() >= level.Rank()
  {
    if logs == [] then []
    else
      var init := logs[..|logs| - 1];
      var last := logs[|logs| - 1];
      assert logs == init + [last];
      AtLeast(init, level) + (if last.level.Rank() >= level.Rank() then [last] else [])
  }

  /** Filtering keeps order: it extends entry by entry. */
  lemma AtLeastAppend(logs: seq<LogEntry>, e: LogEntry, level: LogLevel)
    ensures AtLeast(logs + [e], level) == AtLeast(logs, level) + (if e.level.Rank() >= level.Rank() then [e] else [])
  {
    assert (logs + [e])[..|logs|] == logs;
  }

  /** Filtering at the lowest level keeps everything. */
  lemma {:induction false} AtLeastDebugIsAll(logs: seq<LogEntry>)
    ensures AtLeast(logs, Debug) == logs
    decreases |logs|
  {
    if logs != [] {
      AtLeastDebugIsAll(logs[..|logs| - 1]);
    }
  }

  /** The data an `error` call records: the error's `message` (or the error
      itself when that is falsy), its `stack` and its `name`.  A field whose
      value is `undefined` is left out, as `JSON.stringify` leaves it out. */
  function ErrorData(err: Option<Json>): (r: Json)
    ensures r.JObj? && r.fields.Keys <= {"error", "stack", "name"}
    ensures "error" in r.fields <==> err.Some?
    ensures err.Some? ==>
      r.fields["error"] == if OptJsTruthy(Get(err.value, "message")) then Get(err.value, "message").value else err.value
    ensures "stack" in r.fields <==> err.Some? && Get(err.value, "stack").Some?
    ensures "stack" in r.fields ==> r.fields["stack"] == Get(err.value, "stack").value
    ensures "name" in r.fields <==> err.Some? && Get(err.value, "name").Some?
    ensures "name" in r.fields ==> r.fields["name"] == Get(err.value, "name").value
  {
    var msg := if err.Some? then Get(err.value, "message") else None;
    var e := JsOr(msg, err);
    var base: map<string, Json> := if e.Some? then map["error" := e.value] else map[];
    var withStack := if err.Some? && Get(err.value, "stack").Some? then base["stack" := Get(err.value, "stack").value] else base;
    JObj(if err.Some? && Get(err.value, "name").Some? then withStack["name" := Get(err.value, "name").value] else withStack)
  }

  /** `API <METHOD> <url> - <status>`. */
  function ApiMessage(verb: string, url: string, status: int): string {
    "API " + Upper(verb) + " " + url + " - " + IntToString(status)
  }

  class Logger {
    var logs: seq<LogEntry>
    const development: bool
    /** DEBUG in development builds, INFO otherwise; never changed */
    const currentLevel: LogLevel

    constructor (development: bool)
      ensures this.development == development && logs == [] && Valid()
    {
      this.development := development;
      currentLevel := if development then Debug else Info;
      logs := [];
    }

    ghost predicate Valid()
      reads this
    {
      |logs| <= MaxLogs && currentLevel == (if development then Debug else Info)
    }

    predicate ShouldLog(level: LogLevel)
      reads this
    {
      level.Rank() >= currentLevel.Rank()
    }

    /** One logging call at a level: recorded only when the level passes. */
    method Log(level: LogLevel, message: string, data: Option<Json>, now: int)
      requires Valid()
      modifies this
      ensures Valid()
      ensures ShouldLog(level) ==> logs == Capped(old(logs) + [LogEntry(level, message, data, now)])
      ensures !ShouldLog(level) ==> logs == old(logs)
    {
      if !ShouldLog(level) {
        return;
      }
      logs := Capped(logs + [LogEntry(level, message, data, now)]);
    }

    /** `error`: records `ErrorData` of the given error. */
    method LogError(message: string, err: Option<Json>, now: int)
      requires Valid()
      modifies this
      ensures Valid()
      ensures logs == Capped(old(logs) + [LogEntry(Error, message, Some(ErrorData(err)), now)])
    {
      var data := ErrorData(err);
      assert ShouldLog(Error);
      Log(Error, message, Some(data), now);
    }

    /** `apiCall`: a debug entry, in development builds only. */
    method ApiCall(verb: string, url: string, data: Option<Json>, now: int)
      requires Valid()
      modifies this
      ensures Valid()
      ensures development ==> logs == Capped(old(logs) + [LogEntry(Debug, "API " + Upper(verb) + " " + url, data, now)])
      ensures !development ==> logs == old(logs)
    {
      if development {
        Log(Debug, "API " + Upper(verb) + " " + url, data, now);
      }
    }

    /** `apiResponse`: an error entry for a status of 400 or more, else a
        debug entry in development builds. */
    method ApiResponse(verb: string, url: string, status: int, data: Option<Json>, now: int)
      requires Valid()
      modifies this
      ensures Valid()
      ensures status >= 400 ==>
        logs == Capped(old(logs) + [LogEntry(Error, ApiMessage(verb, url, status), Some(ErrorData(data)), now)])
      ensures status < 400 && development ==>
        logs == Capped(old(logs) + [LogEntry(Debug, ApiMessage(verb, url, status), data, now)])
      ensures status < 400 && !development ==> logs == old(logs)
    {
      var message := ApiMessage(verb, url, status);
      if status >= 400 {
        LogError(message, data, now);
      } else if development {
        Log(Debug, message, data, now);
      }
    }

    /** `userAction`: an info entry. */
    method UserAction(action: string, data: Option<Json>, now: int)
      requires Valid()
      modifies this
      ensures Valid()
      ensures logs == Capped(old(logs) + [LogEntry(Info, "User action: " + action, data, now)])
    {
      Log(Info, "User action: " + action, data, now);
    }

    /** `getLogs`: a copy of the buffer, or the entries at or above a level. */
    function GetLogs(level: Option<LogLevel>): (r: seq<LogEntry>)
      reads this
      ensures level.None? ==> r == logs
      ensures level.Some? ==> r == AtLeast(logs, level.value)
    {
      if level.Some? then AtLeast(logs, level.value) else logs
    }

    /** `clearLogs`: the buffer is emptied. */
    method ClearLogs()
      requires Valid()
      modifies this
      ensures Valid() && logs == []
    {
      logs := [];
    }
  }
}
