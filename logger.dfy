/** The back-end error logger of logger.rs: a JSON file of at most 100 entries, a console routed by
    level, reading and clearing the file, and the plain-text error report. */
module Logger {
  import opened Wrappers
  import opened Text
  import opened Host

  /** One persisted error (`ErrorLogEntry`). */
  datatype ErrorLogEntry = ErrorLogEntry(timestamp: string, level: string, message: string,
                                         stackTrace: Option<string>, source: string)

  /** The `log` macro a console line goes through. */
  datatype Route = ToError | ToWarn | ToInfo

  /** One line written to the console: the macro and its text. */
  datatype ConsoleLine = ConsoleLine(route: Route, text: string)

  /** The console text of `log_error`: the source in brackets, then the message. */
  function ConsoleText(source: string, message: string): string {
    "[" + source + "] " + message
  }

  /** Only the newest this-many entries are kept in the log file. */
  const MaxEntries: nat := 100

  /** The level routing of `log_error`: `"error"` and `"warn"` have their own macro, any other level is info. */
  function RouteFor(level: string): (r: Route)
    ensures r == ToError <==> level == "error"
    ensures r == ToWarn <==> level == "warn"
    ensures r == ToInfo <==> level != "error" && level != "warn"
  {
    if level == "error" then ToError else if level == "warn" then ToWarn else ToInfo
  }

  /** The existing log as `log_error` sees it: a file that is absent, unreadable or unparseable counts as empty. */
  function Existing(file: FileState<seq<ErrorLogEntry>>): (logs: seq<ErrorLogEntry>)
    ensures file.Holds? ==> logs == file.value
    ensures !file.Holds? ==> logs == []
  {
    if file.Holds? then file.value else []
  }

  /** The trimming of `log_error`: drop the oldest entries beyond 100. */
  function Retain(logs: seq<ErrorLogEntry>): (r: seq<ErrorLogEntry>)
    ensures |r| <= MaxEntries
    ensures |r| == if |logs| <= MaxEntries then |logs| else MaxEntries
  {
    if |logs| > MaxEntries then logs[|logs| - MaxEntries..] else logs
  }

  /** What `log_error` keeps is the newest part of the log, in order, ending with the entry just appended. */
  lemma RetainKeepsNewest(logs: seq<ErrorLogEntry>, e: ErrorLogEntry)
    ensures var r := Retain(logs + [e]);
      && r == (logs + [e])[|logs| + 1 - |r|..]
      && r[|r| - 1] == e
      && (|logs| < MaxEntries ==> r == logs + [e])
  {
  }

  /** The entries a series of `log_error` calls leaves in the file, all writes succeeding. */
  function LogAll(logs: seq<ErrorLogEntry>, entries: seq<ErrorLogEntry>): seq<ErrorLogEntry>
    decreases |entries|
  {
    if entries == [] then logs else LogAll(Retain(logs + [entries[0]]), entries[1..])
  }

  /** Trimming before an append and trimming once after it keep the same entries. */
  lemma RetainAppend(logs: seq<ErrorLogEntry>, e: ErrorLogEntry)
    ensures Retain(Retain(logs) + [e]) == Retain(logs + [e])
  {
    if |logs| > MaxEntries {
      assert Retain(logs) + [e] == (logs + [e])[|logs| - MaxEntries..];
    }
  }

  /** Any number of `log_error` calls leave exactly the newest 100 entries of everything logged,
      oldest first, the last one logged at the end. */
  lemma {:induction false} LogAllKeepsNewest(logs: seq<ErrorLogEntry>, entries: seq<ErrorLogEntry>)
    requires entries != []
    ensures LogAll(logs, entries) == Retain(logs + entries)
    ensures LogAll(logs, entries)[|LogAll(logs, entries)| - 1] == entries[|entries| - 1]
    decreases |entries|
  {
    LogAllIsRetain(logs, entries);
    var all := logs + entries;
    assert all == (logs + entries[..|entries| - 1]) + [entries[|entries| - 1]];
    RetainKeepsNewest(logs + entries[..|entries| - 1], entries[|entries| - 1]);
  }

  lemma {:induction false} LogAllIsRetain(logs: seq<ErrorLogEntry>, entries: seq<ErrorLogEntry>)
    requires entries != []
    ensures LogAll(logs, entries) == Retain(logs + entries)
    decreases |entries|
  {
    var first := logs + [entries[0]];
    if |entries| == 1 {
      assert logs + entries == first;
    } else {
      LogAllIsRetain(Retain(first), entries[1..]);
      RetainAppendMany(first, entries[1..]);
      assert first + entries[1..] == logs + entries;
    }
  }

  /** Trimming and then appending several entries and trimming again equals one trim at the end. */
  lemma {:induction false} RetainAppendMany(logs: seq<ErrorLogEntry>, more: seq<ErrorLogEntry>)
    requires more != []
    ensures Retain(Retain(logs) + more) == Retain(logs + more)
    decreases |more|
  {
    if |more| == 1 {
      RetainAppend(logs, more[0]);
      assert more == [more[0]];
    } else {
      var init := more[..|more| - 1];
      var last := more[|more| - 1];
      RetainAppendMany(logs, init);
      assert Retain(logs) + more == (Retain(logs) + init) + [last];
      assert logs + more == (logs + init) + [last];
      RetainAppend(Retain(logs) + init, last);
      RetainAppend(logs + init, last);
    }
  }

  const ReadLogPrefix := "读取错误日志失败: "
  const ParseLogPrefix := "解析错误日志失败: "
  const RemoveLogPrefix := "删除错误日志失败: "
  const ParseInputPrefix := "解析错误数据失败: "

  /** `get_error_logs`: an absent file is an empty log; read and parse failures are reported. */
  function GetErrorLogs(file: FileState<seq<ErrorLogEntry>>): (r: Result<seq<ErrorLogEntry>>)
    ensures r.Ok? <==> file.Missing? || file.Holds?
    ensures file.Missing? ==> r == Ok([])
    ensures file.Holds? ==> r == Ok(file.value)
    ensures file.Unreadable? ==> r == Err(ReadLogPrefix + file.detail)
    ensures file.Unparseable? ==> r == Err(ParseLogPrefix + file.detail)
  {
    match file
    case Missing => Ok([])
    case Unreadable(d) => Err(ReadLogPrefix + d)
    case Unparseable(d) => Err(ParseLogPrefix + d)
    case Holds(v) => Ok(v)
  }

  /** Which of the two report sections an entry is listed in; they format entries differently. */
  datatype Section = Frontend | Backend

  const Title := "=== Omini ToolBox 错误报告 ===\n\n"
  const FrontendHeading := "--- 前端错误 ---\n"
  const BackendHeading := "--- 后端错误 ---\n"
  const NoErrorsLine := "没有记录的错误。\n"

  /** The report's opening: title, report time and operating system. */
  function Header(reportTime: string, os: string): string {
    Title + "报告时间: " + reportTime + "\n" + "系统: " + os + "\n\n"
  }

  /** The line(s) for entry number `n`: the numbered line, then a `Stack:` line when there is a trace. */
  function EntryText(section: Section, n: nat, e: ErrorLogEntry): string {
    var line := if section == Frontend
      then DecimalString(n) + " [" + e.timestamp + "] " + e.message + "\n"
      else DecimalString(n) + " [" + e.timestamp + "] [" + e.level + "] " + e.message + "\n";
    if e.stackTrace.Some? then line + "Stack: " + e.stackTrace.value + "\n" else line
  }

  /** Each entry's text ends with a line break. */
  lemma EntryEndsInNewline(section: Section, n: nat, e: ErrorLogEntry)
    ensures EndsWith(EntryText(section, n, e), "\n")
  {
  }

  /** Each entry's text opens with its number in decimal. */
  lemma EntryStartsWithNumber(section: Section, n: nat, e: ErrorLogEntry)
    ensures DecimalString(n) <= EntryText(section, n, e)
  {
  }

  /** The texts of the entries of one section, numbered from `n`. */
  function EntryLines(section: Section, errs: seq<ErrorLogEntry>, n: nat): seq<string> {
    seq(|errs|, i requires 0 <= i < |errs| => EntryText(section, n + i, errs[i]))
  }

  /** The entries of one section, numbered from `n`, one after another. */
  function Entries(section: Section, errs: seq<ErrorLogEntry>, n: nat): string {
    Concat(EntryLines(section, errs, n))
  }

  /** The numbering runs on across a split of the list: the second part continues where the first stops. */
  lemma EntriesAppend(section: Section, a: seq<ErrorLogEntry>, b: seq<ErrorLogEntry>, n: nat)
    ensures Entries(section, a + b, n) == Entries(section, a, n) + Entries(section, b, n + |a|)
  {
    var la, lb := EntryLines(section, a, n), EntryLines(section, b, n + |a|);
    assert EntryLines(section, a + b, n) == la + lb;
    ConcatAppend(la, lb);
  }

  /** Entry `k` (0-based) of a section is listed under number `k + 1`, after the entries before it. */
  lemma OneBasedNumbering(section: Section, errs: seq<ErrorLogEntry>, k: nat)
    requires k < |errs|
    ensures Entries(section, errs, 1) ==
      Entries(section, errs[..k], 1) + EntryText(section, k + 1, errs[k]) + Entries(section, errs[k + 1..], k + 2)
  {
    var lines := EntryLines(section, errs, 1);
    ConcatAround(lines, k);
    EntryLinesSlice(section, errs, 1, 0, k);
    EntryLinesSlice(section, errs, 1, k + 1, |errs|);
    assert errs[0..k] == errs[..k] && errs[k + 1..|errs|] == errs[k + 1..];
    assert lines[0..k] == lines[..k] && lines[k + 1..|lines|] == lines[k + 1..];
  }

  /** A run of consecutive entries keeps the numbers it had in the whole list. */
  lemma EntryLinesSlice(section: Section, errs: seq<ErrorLogEntry>, n: nat, lo: nat, hi: nat)
    requires lo <= hi <= |errs|
    ensures EntryLines(section, errs, n)[lo..hi] == EntryLines(section, errs[lo..hi], n + lo)
  {
  }

  /** The heading line of a section. */
  function Heading(section: Section): string {
    if section == Frontend then FrontendHeading else BackendHeading
  }

  /** A whole section: nothing for an empty list, otherwise heading, entries from 1 and a blank line. */
  function SectionText(section: Section, errs: seq<ErrorLogEntry>): (t: string)
    ensures errs == [] <==> t == ""
  {
    if errs == [] then "" else Heading(section) + Entries(section, errs, 1) + "\n"
  }

  /** `t` ends with `suffix`. */
  predicate EndsWith(t: string, suffix: string) {
    |suffix| <= |t| && t[|t| - |suffix|..] == suffix
  }

  lemma EndsWithAppend(p: string, q: string, suffix: string)
    requires EndsWith(q, suffix)
    ensures EndsWith(p + q, suffix)
  {
    assert (p + q)[|p + q| - |suffix|..] == q[|q| - |suffix|..];
  }

  lemma EntriesEndsInNewline(section: Section, errs: seq<ErrorLogEntry>, n: nat)
    requires errs != []
    ensures EndsWith(Entries(section, errs, n), "\n")
  {
    var ls := EntryLines(section, errs, n);
    var k := |errs| - 1;
    assert ls == ls[..k] + [ls[k]];
    ConcatAppend(ls[..k], [ls[k]]);
    ConcatOne(ls[k]);
    EntryEndsInNewline(section, n + k, errs[k]);
    EndsWithAppend(Concat(ls[..k]), ls[k], "\n");
  }

  /** A non-empty section ends with a blank line. */
  lemma SectionEndsBlank(section: Section, errs: seq<ErrorLogEntry>)
    requires errs != []
    ensures EndsWith(SectionText(section, errs), "\n\n")
  {
    EntriesEndsInNewline(section, errs, 1);
    EndsWithAppend(Heading(section), Entries(section, errs, 1), "\n");
    NewlineAfterNewline(Heading(section) + Entries(section, errs, 1));
  }

  lemma NewlineAfterNewline(t: string)
    requires EndsWith(t, "\n")
    ensures EndsWith(t + "\n", "\n\n")
  {
    assert (t + "\n")[|t| - 1..] == [t[|t| - 1], '\n'];
  }

  /** Text ending in a blank line does not end with the no-errors line. */
  lemma BlankIsNotNoErrors(t: string)
    requires EndsWith(t, "\n\n")
    ensures !EndsWith(t, NoErrorsLine)
  {
    assert t[|t| - 2] == '\n';
  }

  /** The report text of `send_error_report`. */
  function ReportText(frontend: seq<ErrorLogEntry>, backend: seq<ErrorLogEntry>, reportTime: string, os: string): string {
    Header(reportTime, os) + SectionText(Frontend, frontend) + SectionText(Backend, backend)
      + (if frontend == [] && backend == [] then NoErrorsLine else "")
  }

  /** The report opens with its header: title, report time and system. */
  lemma ReportStartsWithHeader(frontend: seq<ErrorLogEntry>, backend: seq<ErrorLogEntry>, reportTime: string, os: string)
    ensures Header(reportTime, os) <= ReportText(frontend, backend, reportTime, os)
  {
  }

  /** The report ends with the no-errors line exactly when both lists are empty; otherwise it ends with
      the blank line closing its last section. */
  lemma ReportNoErrorsIff(frontend: seq<ErrorLogEntry>, backend: seq<ErrorLogEntry>, reportTime: string, os: string)
    ensures EndsWith(ReportText(frontend, backend, reportTime, os), NoErrorsLine) <==> frontend == [] && backend == []
  {
    var t := ReportText(frontend, backend, reportTime, os);
    var h := Header(reportTime, os);
    if frontend == [] && backend == [] {
      assert t == h + NoErrorsLine;
      assert t[|t| - |NoErrorsLine|..] == NoErrorsLine;
    } else {
      var front := h + SectionText(Frontend, frontend);
      assert t == front + SectionText(Backend, backend);
      if backend != [] {
        SectionEndsBlank(Backend, backend);
        EndsWithAppend(front, SectionText(Backend, backend), "\n\n");
      } else {
        SectionEndsBlank(Frontend, frontend);
        EndsWithAppend(h, SectionText(Frontend, frontend), "\n\n");
        assert t == front;
      }
      BlankIsNotNoErrors(t);
    }
  }

  /** The `for` loop of a section: each entry pushed in order under numbers 1, 2, … */
  method AppendEntries(report: string, section: Section, errs: seq<ErrorLogEntry>) returns (r: string)
    ensures r == report + Entries(section, errs, 1)
  {
    ghost var lines := EntryLines(section, errs, 1);
    r := report;
    for i := 0 to |errs|
      invariant r + Concat(lines[i..]) == report + Concat(lines)
    {
      assert lines[i..][1..] == lines[i + 1..];
      r := r + EntryText(section, i + 1, errs[i]);
    }
    assert r + Concat(lines[|errs|..]) == r + "";
  }

  /** One section block of `send_error_report`: when the list is non-empty, the heading, the numbered
      entries, then a blank line. */
  method AppendSection(report: string, section: Section, errs: seq<ErrorLogEntry>) returns (r: string)
    ensures r == report + SectionText(section, errs)
  {
    r := report;
    if errs != [] {
      r := r + Heading(section);
      r := AppendEntries(r, section, errs);
      r := r + "\n";
      AppendRegroup(report, Heading(section), Entries(section, errs, 1), "\n");
    }
  }

  lemma AppendRegroup(a: string, b: string, c: string, d: string)
    ensures a + b + c + d == a + (b + c + d)
  {
  }

  /** The report assembly of `send_error_report`: the header, the front-end and back-end sections, and
      the no-errors line when there is nothing to list. */
  method BuildReport(frontend: seq<ErrorLogEntry>, backend: seq<ErrorLogEntry>, reportTime: string, os: string)
    returns (report: string)
    ensures report == ReportText(frontend, backend, reportTime, os)
  {
    report := Header(reportTime, os);
    report := AppendSection(report, Frontend, frontend);
    report := AppendSection(report, Backend, backend);
    if frontend == [] && backend == [] {
      report := report + NoErrorsLine;
    }
  }

  /** The error log file and the console, as `log_error` and the Tauri commands of logger.rs see them. */
  class ErrorLog {
    var file: FileState<seq<ErrorLogEntry>>
    var console: seq<ConsoleLine>

    constructor (file: FileState<seq<ErrorLogEntry>>)
      ensures this.file == file && console == []
    {
      this.file := file;
      console := [];
    }

    /** `log_error`. `timestamp` is the current time; `writeOk` says whether writing the file back succeeds
        (a failure is ignored). */
    method LogError(message: string, stackTrace: Option<string>, level: string, source: string,
                    timestamp: string, writeOk: bool)
      modifies this
      ensures var entry := ErrorLogEntry(timestamp, level, message, stackTrace, source);
        file == if writeOk then Holds(Retain(Existing(old(file)) + [entry])) else old(file)
      ensures console == old(console) + [ConsoleLine(RouteFor(level), ConsoleText(source, message))]
    {
      var entry := ErrorLogEntry(timestamp, level, message, stackTrace, source);
      var logs := if file.Holds? then file.value else [];
      logs := logs + [entry];
      if |logs| > MaxEntries {
        var keepFrom := |logs| - MaxEntries;
        logs := logs[keepFrom..];
      }
      if writeOk {
        file := Holds(logs);
      }
      var route := if level == "error" then ToError else if level == "warn" then ToWarn else ToInfo;
      console := console + [ConsoleLine(route, ConsoleText(source, message))];
    }

    /** `log_frontend_error`: level `"error"`, source `"frontend"`. */
    method LogFrontendError(message: string, stack: Option<string>, timestamp: string, writeOk: bool)
      modifies this
      ensures file == if writeOk
        then Holds(Retain(Existing(old(file)) + [ErrorLogEntry(timestamp, "error", message, stack, "frontend")]))
        else old(file)
      ensures console == old(console) + [ConsoleLine(ToError, ConsoleText("frontend", message))]
    {
      LogError(message, stack, "error", "frontend", timestamp, writeOk);
    }

    /** `log_backend_error`: level `"error"`, source `"backend"`. */
    method LogBackendError(message: string, stack: Option<string>, timestamp: string, writeOk: bool)
      modifies this
      ensures file == if writeOk
        then Holds(Retain(Existing(old(file)) + [ErrorLogEntry(timestamp, "error", message, stack, "backend")]))
        else old(file)
      ensures console == old(console) + [ConsoleLine(ToError, ConsoleText("backend", message))]
    {
      LogError(message, stack, "error", "backend", timestamp, writeOk);
    }

    /** `clear_error_logs`: nothing to do when the file is absent; otherwise the file is removed, or the
        removal failure `removal` is reported and the file stays. */
    method ClearErrorLogs(removal: Option<string>) returns (r: Result<()>)
      modifies this`file
      ensures old(file).Missing? ==> r == Ok(()) && file == old(file)
      ensures !old(file).Missing? && removal.None? ==> r == Ok(()) && file == Missing
      ensures !old(file).Missing? && removal.Some? ==> r == Err(RemoveLogPrefix + removal.value) && file == old(file)
    {
      if !file.Missing? {
        if removal.Some? {
          return Err(RemoveLogPrefix + removal.value);
        }
        file := Missing;
      }
      r := Ok(());
    }

    /** `send_error_report`: `errorsJson` is the front end's list after parsing. Malformed input or an
        unreadable log file is an error; otherwise the report is assembled and the call succeeds whether
        or not saving it succeeds. The report is returned instead of being written to a file. */
    method SendErrorReport(email: string, errorsJson: Result<seq<ErrorLogEntry>>, reportTime: string, os: string)
      returns (r: Result<()>, report: Option<string>)
      ensures errorsJson.Err? ==> r == Err(ParseInputPrefix + errorsJson.error) && report.None?
      ensures errorsJson.Ok? && GetErrorLogs(file).Err? ==> r == Err(GetErrorLogs(file).error) && report.None?
      ensures r.Ok? <==> errorsJson.Ok? && GetErrorLogs(file).Ok?
      ensures r.Ok? ==> report == Some(ReportText(errorsJson.value, GetErrorLogs(file).value, reportTime, os))
    {
      if errorsJson.Err? {
        return Err(ParseInputPrefix + errorsJson.error), None;
      }
      var backend := GetErrorLogs(file);
      if backend.Err? {
        return Err(backend.error), None;
      }
      var text := BuildReport(errorsJson.value, backend.value, reportTime, os);
      return Ok(()), Some(text);
    }
  }
}
