/**
 * The logging layer (src/logger.ts): one `Logger` per log type, each writing
 * formatted lines to the console and, while its file stream is open, to its file;
 * a registry that creates each logger once and closes them all; and the routing
 * of legacy logger names. Time strings and the local date are passed in; console
 * and file output are recorded as sequences of lines.
 */
module Logging {
  import opened Wrappers
  import opened Strings

  datatype LogType = Order | Test | Run | System

  /** The string value of each `LogType` member. */
  function TypeName(t: LogType): string {
    match t
    case Order => "order"
    case Test => "test"
    case Run => "run"
    case System => "system"
  }

  const START_BANNER: string := "====== 日志会话开始 ======"
  const END_BANNER: string := "====== 日志会话结束 ======"

  /** `getDateString()`: `YYYYMMDD` from the local year, zero-based month and day. */
  function DateString(year: nat, month0: nat, day: nat): string {
    NatToString(year) + PadStart2(month0 + 1) + PadStart2(day)
  }

  /** For a four-digit year the date string has eight digits, and they read back as the date. */
  lemma DateStringDigits(year: nat, month0: nat, day: nat)
    requires 1000 <= year <= 9999 && month0 < 12 && 1 <= day <= 31
    ensures var s := DateString(year, month0, day);
      |s| == 8 && (forall i :: 0 <= i < 8 ==> IsDigit(s[i]))
      && DigitsValue(s[..4]) == year && DigitsValue(s[4..6]) == month0 + 1 && DigitsValue(s[6..]) == day
  {
    assert Pow10(3) == 1000 && Pow10(4) == 10000;
    NatToStringLength(year, 4);
    NatToStringRoundTrip(year);
    PadStart2Digits(month0 + 1);
    PadStart2Digits(day);
    var s := DateString(year, month0, day);
    assert s[..4] == NatToString(year);
    assert s[4..6] == PadStart2(month0 + 1);
    assert s[6..] == PadStart2(day);
  }

  /** `module ? "[module] " : ""`: an absent or empty module name adds nothing. */
  function ModulePrefix(moduleName: Option<string>): string {
    if moduleName.Some? && moduleName.value != "" then "[" + moduleName.value + "] " else ""
  }

  /** `[time] [LEVEL] ` then the module prefix, then the message. */
  function FormatLine(time: string, level: string, moduleName: Option<string>, message: string): string {
    "[" + time + "] [" + level + "] " + ModulePrefix(moduleName) + message
  }

  /**
   * A formatted line begins with the bracketed time and level, carries the bracketed
   * module name exactly when one is given, and ends with the message unchanged.
   */
  lemma FormatLineParts(time: string, level: string, moduleName: Option<string>, message: string)
    ensures var line := FormatLine(time, level, moduleName, message);
      var head := "[" + time + "] [" + level + "] ";
      var named := moduleName.Some? && moduleName.value != "";
      |line| == |head| + (if named then |moduleName.value| + 3 else 0) + |message|
      && line[..|head|] == head
      && (named ==> line[|head|..|head| + |moduleName.value| + 3] == "[" + moduleName.value + "] ")
      && line[|line| - |message|..] == message
  {
    var line := FormatLine(time, level, moduleName, message);
    var head := "[" + time + "] [" + level + "] ";
    assert line == head + ModulePrefix(moduleName) + message;
  }

  /** A logger: its type, its file, whether its stream is open, and what it has written. */
  class Logger {
    const logType: string
    const logFile: string
    var streamOpen: bool
    var fileLines: seq<string>
    var consoleLines: seq<string>

    /**
     * `new Logger(type)`: the file is `<type>_<YYYYMMDD>.log` under `logDir`; when the
     * stream opens, the start banner is logged at `time`.
     */
    constructor (logType: string, logDir: string, year: nat, month0: nat, day: nat, streamOpens: bool, time: string)
      ensures this.logType == logType
      ensures logFile == logDir + "/" + logType + "_" + DateString(year, month0, day) + ".log"
      ensures streamOpen == streamOpens
      ensures consoleLines == if streamOpens then [FormatLine(time, "INFO", None, START_BANNER)] else []
      ensures fileLines == if streamOpens then [FormatLine(time, "INFO", None, START_BANNER) + "\n"] else []
    {
      this.logType := logType;
      logFile := logDir + "/" + logType + "_" + DateString(year, month0, day) + ".log";
      streamOpen := false;
      fileLines := [];
      consoleLines := [];
      new;
      if streamOpens {
        streamOpen := true;
        Info(START_BANNER, None, time);
      }
    }

    /** `log(level, message, module)`: always to the console, to the file only while open. */
    method Log(level: string, message: string, moduleName: Option<string>, time: string)
      modifies this
      ensures streamOpen == old(streamOpen)
      ensures consoleLines == old(consoleLines) + [FormatLine(time, level, moduleName, message)]
      ensures fileLines == old(fileLines) + if streamOpen then [FormatLine(time, level, moduleName, message) + "\n"] else []
    {
      var formattedMessage := FormatLine(time, level, moduleName, message);
      consoleLines := consoleLines + [formattedMessage];
      if streamOpen {
        fileLines := fileLines + [formattedMessage + "\n"];
      }
    }

    method Info(message: string, moduleName: Option<string>, time: string)
      modifies this
      ensures streamOpen == old(streamOpen)
      ensures consoleLines == old(consoleLines) + [FormatLine(time, "INFO", moduleName, message)]
      ensures fileLines == old(fileLines) + if streamOpen then [FormatLine(time, "INFO", moduleName, message) + "\n"] else []
    {
      Log("INFO", message, moduleName, time);
    }

    method Warn(message: string, moduleName: Option<string>, time: string)
      modifies this
      ensures streamOpen == old(streamOpen)
      ensures consoleLines == old(consoleLines) + [FormatLine(time, "WARN", moduleName, message)]
      ensures fileLines == old(fileLines) + if streamOpen then [FormatLine(time, "WARN", moduleName, message) + "\n"] else []
    {
      Log("WARN", message, moduleName, time);
    }

    method Error(message: string, moduleName: Option<string>, time: string)
      modifies this
      ensures streamOpen == old(streamOpen)
      ensures consoleLines == old(consoleLines) + [FormatLine(time, "ERROR", moduleName, message)]
      ensures fileLines == old(fileLines) + if streamOpen then [FormatLine(time, "ERROR", moduleName, message) + "\n"] else []
    {
      Log("ERROR", message, moduleName, time);
    }

    method Success(message: string, moduleName: Option<string>, time: string)
      modifies this
      ensures streamOpen == old(streamOpen)
      ensures consoleLines == old(consoleLines) + [FormatLine(time, "SUCCESS", moduleName, message)]
      ensures fileLines == old(fileLines) + if streamOpen then [FormatLine(time, "SUCCESS", moduleName, message) + "\n"] else []
    {
      Log("SUCCESS", message, moduleName, time);
    }

    /**
     * `close()`: an open stream gets the end banner and is closed; on a closed one the
     * call changes nothing, so closing twice writes the banner once.
     */
    method Close(time: string)
      modifies this
      ensures !streamOpen
      ensures old(streamOpen) ==>
        fileLines == old(fileLines) + [FormatLine(time, "INFO", None, END_BANNER) + "\n"]
        && consoleLines == old(consoleLines) + [FormatLine(time, "INFO", None, END_BANNER)]
      ensures !old(streamOpen) ==> fileLines == old(fileLines) && consoleLines == old(consoleLines)
    {
      if streamOpen {
        Info(END_BANNER, None, time);
        streamOpen := false;
      }
    }
  }

  /** The host facts a new logger needs: the log directory, today's date, whether the file opens. */
  datatype Host = Host(logDir: string, year: nat, month0: nat, day: nat, streamOpens: bool)

  /** The `LogManager` singleton: at most one logger per type. */
  class LogManager {
    var loggers: map<LogType, Logger>

    /** Each registered logger is of its key's type, and no two keys share a logger. */
    ghost predicate Valid()
      reads this, loggers.Values
    {
      (forall t :: t in loggers ==> loggers[t].logType == TypeName(t))
      && forall t1, t2 :: t1 in loggers && t2 in loggers && t1 != t2 ==> loggers[t1] != loggers[t2]
    }

    constructor ()
      ensures loggers == map[] && Valid()
    {
      loggers := map[];
    }

    /** `getLogger(type)`: the registered logger, or a new one registered under `type`. */
    method GetLogger(t: LogType, host: Host, time: string) returns (l: Logger)
      requires Valid()
      modifies this
      ensures Valid()
      ensures t in old(loggers) ==> l == old(loggers)[t] && loggers == old(loggers)
      ensures t !in old(loggers) ==>
        fresh(l) && loggers == old(loggers)[t := l]
        && l.logType == TypeName(t) && l.streamOpen == host.streamOpens
        && l.logFile == host.logDir + "/" + TypeName(t) + "_" + DateString(host.year, host.month0, host.day) + ".log"
      ensures l == loggers[t]
    {
      if t !in loggers {
        var created := new Logger(TypeName(t), host.logDir, host.year, host.month0, host.day, host.streamOpens, time);
        loggers := loggers[t := created];
      }
      l := loggers[t];
    }

    /** `closeAll()`: every registered logger is closed (once), then the registry is emptied. */
    method CloseAll(time: string)
      requires Valid()
      modifies this, loggers.Values
      ensures loggers == map[] && Valid()
      ensures forall t :: t in old(loggers) ==> !old(loggers)[t].streamOpen
      ensures forall t :: t in old(loggers) ==>
        var l := old(loggers)[t];
        l.fileLines == old(l.fileLines) + (if old(l.streamOpen) then [FormatLine(time, "INFO", None, END_BANNER) + "\n"] else [])
    {
      ghost var banner := FormatLine(time, "INFO", None, END_BANNER) + "\n";
      var registered := loggers;
      var pending := registered.Keys;
      while pending != {}
        invariant pending <= registered.Keys
        invariant forall t1, t2 :: t1 in registered && t2 in registered && t1 != t2 ==> registered[t1] != registered[t2]
        invariant forall t :: t in registered && t !in pending ==>
          !registered[t].streamOpen
          && registered[t].fileLines == old(registered[t].fileLines) + (if old(registered[t].streamOpen) then [banner] else [])
        invariant forall t :: t in pending ==>
          registered[t].fileLines == old(registered[t].fileLines) && registered[t].streamOpen == old(registered[t].streamOpen)
        decreases pending
      {
        var t :| t in pending;
        registered[t].Close(time);
        pending := pending - {t};
      }
      loggers := map[];
    }
  }

  /** Where a legacy `createLogger(name)` writes: a log type and the module name shown in its lines. */
  datatype Route = Route(logType: LogType, moduleName: Option<string>)

  /** `createLogger(name)`: prefixes tested in the order `order`, `test`, `run`; anything else is the system log. */
  function CreateLogger(name: string): (r: Route)
    ensures r.logType == Order <==> StartsWith(name, "order")
    ensures r.logType == Test <==> !StartsWith(name, "order") && StartsWith(name, "test")
    ensures r.logType == Run <==> !StartsWith(name, "order") && !StartsWith(name, "test") && StartsWith(name, "run")
    ensures r.logType == System <==> r.moduleName.None?
    ensures r.moduleName.Some? ==> r.moduleName.value == name && ModulePrefix(r.moduleName) == "[" + name + "] "
  {
    if StartsWith(name, "order") then Route(Order, Some(name))
    else if StartsWith(name, "test") then Route(Test, Some(name))
    else if StartsWith(name, "run") then Route(Run, Some(name))
    else Route(System, None)
  }
}
