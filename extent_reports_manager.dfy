/** ExtentReportsManager: the single HTML report, created on first use, and the
    table from worker to the report test that worker is currently writing to.
    Every logging call goes to the current worker's test and does nothing when
    that worker has none. */
module Reporting {
  import opened Wrappers
  import opened JavaLang

  // ---------------------------------------------------------------------------
  // The report library's objects, as far as the manager uses them

  datatype LogStatus = Pass | Fail | Skip | Info | Warning

  /** One line of a report test; `screenshot` is the path handed to
      addScreenCapture when the line carries an image. */
  datatype LogEntry = LogEntry(status: LogStatus, details: string, screenshot: Option<string>)

  /** A test in the report: its name and description and what was written
      to it. */
  datatype ExtentTest = ExtentTest(
    name: string,
    description: string,
    entries: seq<LogEntry>,
    categories: seq<string>,
    authors: seq<string>)
  {
    function Log(lines: seq<LogEntry>): ExtentTest {
      this.(entries := entries + lines)
    }
    function AssignCategories(cs: seq<string>): ExtentTest {
      this.(categories := categories + cs)
    }
    function AssignAuthor(author: string): ExtentTest {
      this.(authors := authors + [author])
    }
  }

  /** A test as the report's startTest creates it: nothing written yet. */
  function NewTest(name: string, description: string): ExtentTest {
    ExtentTest(name, description, [], [], [])
  }

  /** The report: the tests started on it (as started), the tests ended on it
      (as they stood when ended), and how often it was flushed and closed. */
  datatype ExtentReports = ExtentReports(
    reportPath: string,
    started: seq<ExtentTest>,
    ended: seq<ExtentTest>,
    flushes: nat,
    closed: bool)

  function NewReport(reportPath: string): ExtentReports {
    ExtentReports(reportPath, [], [], 0, false)
  }

  // ---------------------------------------------------------------------------
  // Where the report and its screenshots live

  /** What createInstance reads from the runtime: the user.dir property, the
      clock (already formatted as yyyy-MM-dd_HH-mm-ss) and File.separator. */
  datatype ReportEnv = ReportEnv(baseDir: Option<string>, timestamp: string, sep: char)

  /** The directory holding the report: user.dir/test-output/extent-reports. */
  function ReportDir(env: ReportEnv): string {
    NullableText(env.baseDir) + [env.sep] + "test-output" + [env.sep] + "extent-reports"
  }

  function ReportPath(env: ReportEnv): string {
    NullableText(env.baseDir) + [env.sep] + "test-output" + [env.sep] + "extent-reports" + [env.sep]
      + "ExtentReport_" + env.timestamp + ".html"
  }

  function ScreenshotDir(env: ReportEnv): string {
    NullableText(env.baseDir) + [env.sep] + "test-output" + [env.sep] + "extent-reports" + [env.sep]
      + "screenshots"
  }

  /** The report file and the screenshot directory sit side by side, so
      "./screenshots/<file>" read relative to the report names a file in the
      screenshot directory. */
  lemma ScreenshotsBesideReport(env: ReportEnv)
    ensures ReportPath(env) == ReportDir(env) + [env.sep] + "ExtentReport_" + env.timestamp + ".html"
    ensures ScreenshotDir(env) == ReportDir(env) + [env.sep] + "screenshots"
  {
  }

  /** File.separator: '/' on Unix, '\' on Windows. */
  predicate IsSeparator(c: char) {
    c == '/' || c == '\\'
  }

  const ScreenshotsPrefix: string := "./screenshots/"

  /** The file-name part convertToRelativePath keeps: the text after the last
      File.separator, else after the last '/', else the whole path. */
  function FileNameOf(sep: char, path: string): (f: string)
    ensures |f| <= |path| && f == path[|path| - |f|..]
    ensures sep !in f
    ensures sep in path ==> path[|path| - |f| - 1] == sep
    ensures sep !in path && '/' in path ==> '/' !in f && path[|path| - |f| - 1] == '/'
    ensures sep !in path && '/' !in path ==> f == path
  {
    if sep in path then SubstringAfterLast(path, sep)
    else if '/' in path then SubstringAfterLast(path, '/')
    else path
  }

  /** convertToRelativePath: the screenshot's path as seen from the report,
      "./screenshots/" followed by the text after the input's last separator,
      else after its last '/', else the whole input. */
  function ConvertToRelativePath(sep: char, path: string): (r: string)
    ensures |ScreenshotsPrefix| <= |r| <= |ScreenshotsPrefix| + |path| && r[..|ScreenshotsPrefix|] == ScreenshotsPrefix
    ensures var f := r[|ScreenshotsPrefix|..];
      && f == path[|path| - |f|..] && sep !in f
      && (sep in path ==> path[|path| - |f| - 1] == sep)
      && (sep !in path && '/' in path ==> '/' !in f && path[|path| - |f| - 1] == '/')
      && (sep !in path && '/' !in path ==> f == path)
  {
    var f := FileNameOf(sep, path);
    assert (ScreenshotsPrefix + f)[|ScreenshotsPrefix|..] == f;
    ScreenshotsPrefix + f
  }

  /** Converting an already converted path changes nothing as long as the kept
      file name holds no '/'; on Unix, where the separator is '/', that is
      always so. */
  lemma ConvertIsStable(sep: char, path: string)
    requires IsSeparator(sep)
    requires '/' !in FileNameOf(sep, path)
    ensures ConvertToRelativePath(sep, ConvertToRelativePath(sep, path)) == ConvertToRelativePath(sep, path)
  {
    ConvertKeepsFileName(sep, FileNameOf(sep, path));
  }

  /** "./screenshots/" + name converts to itself when name holds neither the
      separator nor '/'. */
  lemma ConvertKeepsFileName(sep: char, f: string)
    requires IsSeparator(sep) && sep !in f && '/' !in f
    ensures ConvertToRelativePath(sep, ScreenshotsPrefix + f) == ScreenshotsPrefix + f
  {
    var r := ScreenshotsPrefix + f;
    assert r[|r| - |f| - 1] == '/';
    LastSlashBeforeName(r, f);
    if sep == '\\' {
      NoBackslashAfterPrefix(f);
    }
  }

  /** The prefix holds no '\', so a converted Windows path holds one only
      inside its file name. */
  lemma NoBackslashAfterPrefix(f: string)
    requires '\\' !in f
    ensures '\\' !in ScreenshotsPrefix + f
  {
    assert forall i :: 0 <= i < |ScreenshotsPrefix| ==> ScreenshotsPrefix[i] != '\\';
    assert forall i :: 0 <= i < |f| ==> (ScreenshotsPrefix + f)[|ScreenshotsPrefix| + i] == f[i];
  }

  /** In prefix + "/" + name with no '/' in name, the text after the last '/'
      is name. */
  lemma LastSlashBeforeName(r: string, f: string)
    requires |r| > |f| && r[|r| - |f| - 1] == '/' && '/' !in f && r[|r| - |f|..] == f
    ensures '/' in r && SubstringAfterLast(r, '/') == f
  {
    assert r[|r| - |f| - 1] in r;
  }

  /** A Windows path whose file part holds a '/': a second conversion drops
      more of it. */
  lemma ConvertNotStableOnWindows()
    ensures ConvertToRelativePath('\\', "\\a/b") == "./screenshots/a/b"
    ensures ConvertToRelativePath('\\', "./screenshots/a/b") == "./screenshots/b"
  {
    assert FileNameOf('\\', "\\a/b") == "a/b";
    NoBackslashAfterPrefix("a/b");
    LastSlashBeforeName("./screenshots/a/b", "b");
  }

  // ---------------------------------------------------------------------------
  // The manager's static state

  /** What happened inside logStepWithScreenshot's try block: the image was
      attached, or attaching threw with the given message. */
  datatype AttachOutcome = Attached | AttachThrew(message: Option<string>)

  /** The report file and screenshot directory after a call that may create
      the report: set from the environment by the call that creates it, kept
      by every later one. */
  function PathsAfterStart(e0: Option<ExtentReports>, paths: (Option<string>, Option<string>), env: ReportEnv)
    : (Option<string>, Option<string>)
  {
    if e0.None? then (Some(ReportPath(env)), Some(ScreenshotDir(env))) else paths
  }

  /** ExtentReportsManager's static fields. */
  class ReportsManager {
    var extent: Option<ExtentReports>
    var testMap: map<WorkerId, ExtentTest>
    var reportPath: Option<string>
    var screenshotPath: Option<string>

    constructor ()
      ensures extent == None && testMap == map[]
      ensures reportPath == None && screenshotPath == None
    {
      extent := None;
      testMap := map[];
      reportPath := None;
      screenshotPath := None;
    }

    /** The report file and the screenshot directory getInstance records. */
    function Paths(): (Option<string>, Option<string>)
      reads this
    {
      (reportPath, screenshotPath)
    }

    /** Every current test was started on the report, so the report exists
        whenever some worker has a current test. */
    ghost predicate Valid()
      reads this
    {
      forall k :: k in testMap ==> extent.Some?
    }

    /** getInstance(): creates the report on the first call; every later
        call returns that same report. */
    method GetInstance(env: ReportEnv) returns (e: ExtentReports)
      modifies this
      ensures extent == Some(e) && testMap == old(testMap)
      ensures old(extent).Some? ==>
        e == old(extent).value && reportPath == old(reportPath) && screenshotPath == old(screenshotPath)
      ensures old(extent).None? ==>
        e == NewReport(ReportPath(env)) &&
        reportPath == Some(ReportPath(env)) && screenshotPath == Some(ScreenshotDir(env))
    {
      if extent.None? {
        reportPath := Some(ReportPath(env));
        screenshotPath := Some(ScreenshotDir(env));
        extent := Some(NewReport(ReportPath(env)));
      }
      e := extent.value;
    }

    /** getTest(): the worker's current test, or null. */
    function GetTest(w: WorkerId): (r: Option<ExtentTest>)
      reads this
      ensures r.Some? <==> w in testMap
      ensures r.Some? ==> r.value == testMap[w]
    {
      if w in testMap then Some(testMap[w]) else None
    }

    /** startTest(name, description): starts a test on the report and makes
        it the worker's current test, replacing any earlier one of that
        worker only. */
    method StartTest(w: WorkerId, env: ReportEnv, name: string, description: string) returns (t: ExtentTest)
      requires Valid()
      modifies this
      ensures Valid()
      ensures t == NewTest(name, description)
      ensures testMap == old(testMap)[w := t]
      ensures extent.Some? && extent.value == Started(Instance(old(extent), env), t)
      ensures Paths() == PathsAfterStart(old(extent), old(Paths()), env)
    {
      var report := GetInstance(env);
      t := NewTest(name, description);
      extent := Some(report.(started := report.started + [t]));
      testMap := testMap[w := t];
    }

    /** endTest(): ends the worker's current test on the report and forgets
        it; without a current test it does nothing. */
    method EndTest(w: WorkerId)
      requires Valid()
      modifies this
      ensures Valid()
      ensures testMap == old(testMap) - {w}
      ensures w in old(testMap) ==> extent == Some(Ended(old(extent).value, old(testMap[w])))
      ensures w !in old(testMap) ==> extent == old(extent)
      ensures reportPath == old(reportPath) && screenshotPath == old(screenshotPath)
    {
      if w in testMap {
        var test := testMap[w];
        // The report exists (Valid), so getInstance() returns it unchanged.
        extent := Some(Ended(extent.value, test));
        testMap := testMap - {w};
      }
    }

    /** logStep(status, details): appends a line to the worker's current test. */
    method LogStep(w: WorkerId, status: LogStatus, details: string)
      modifies this
      ensures testMap == Update(old(testMap), w, [LogEntry(status, details, None)])
      ensures extent == old(extent) && reportPath == old(reportPath) && screenshotPath == old(screenshotPath)
    {
      if w in testMap {
        testMap := testMap[w := testMap[w].Log([LogEntry(status, details, None)])];
      }
    }

    /** logStepWithScreenshot(status, details, path): appends a line carrying
        the image at the path converted for the report; when attaching throws,
        the line says so instead. */
    method LogStepWithScreenshot(w: WorkerId, status: LogStatus, details: string, sep: char, path: string,
                                 attach: AttachOutcome)
      modifies this
      ensures testMap == Update(old(testMap), w, [ScreenshotEntry(status, details, sep, path, attach)])
      ensures extent == old(extent) && reportPath == old(reportPath) && screenshotPath == old(screenshotPath)
    {
      if w in testMap {
        var test := testMap[w];
        var relativePath := ConvertToRelativePath(sep, path);
        if attach.Attached? {
          testMap := testMap[w := test.Log([LogEntry(status, details, Some(relativePath))])];
        } else {
          testMap := testMap[w := test.Log([LogEntry(status, details + " [Screenshot capture failed: " + NullableText(attach.message) + "]", None)])];
        }
      }
    }

    /** assignCategory(category) on the worker's current test. */
    method AssignCategory(w: WorkerId, category: string)
      modifies this
      ensures testMap == Categorized(old(testMap), w, [category])
      ensures extent == old(extent) && reportPath == old(reportPath) && screenshotPath == old(screenshotPath)
    {
      if w in testMap {
        testMap := testMap[w := testMap[w].AssignCategories([category])];
      }
    }

    /** assignAuthor(author) on the worker's current test. */
    method AssignAuthor(w: WorkerId, author: string)
      modifies this
      ensures testMap == Authored(old(testMap), w, author)
      ensures extent == old(extent) && reportPath == old(reportPath) && screenshotPath == old(screenshotPath)
    {
      if w in testMap {
        testMap := testMap[w := testMap[w].AssignAuthor(author)];
      }
    }

    /** flush(): writes out and closes the report if it was ever created. */
    method Flush()
      modifies this
      ensures extent == (if old(extent).Some? then Some(Flushed(old(extent).value)) else None)
      ensures testMap == old(testMap) && reportPath == old(reportPath) && screenshotPath == old(screenshotPath)
    {
      if extent.Some? {
        extent := Some(Flushed(extent.value));
      }
    }
  }

  /** The report getInstance() yields: the existing one, or a new one. */
  function Instance(extent: Option<ExtentReports>, env: ReportEnv): ExtentReports {
    if extent.Some? then extent.value else NewReport(ReportPath(env))
  }

  function Started(e: ExtentReports, t: ExtentTest): ExtentReports {
    e.(started := e.started + [t])
  }

  function Ended(e: ExtentReports, t: ExtentTest): ExtentReports {
    e.(ended := e.ended + [t])
  }

  /** The report after flush() and close(). */
  function Flushed(e: ExtentReports): ExtentReports {
    e.(flushes := e.flushes + 1, closed := true)
  }

  /** The test table after categories are added to worker w's current test. */
  function Categorized(m: map<WorkerId, ExtentTest>, w: WorkerId, cs: seq<string>): (r: map<WorkerId, ExtentTest>)
    ensures r.Keys == m.Keys
    ensures forall k :: k in m && k != w ==> r[k] == m[k]
    ensures w in m ==> r[w] == m[w].AssignCategories(cs)
  {
    if w in m then m[w := m[w].AssignCategories(cs)] else m
  }

  /** The test table after an author is added to worker w's current test. */
  function Authored(m: map<WorkerId, ExtentTest>, w: WorkerId, author: string): (r: map<WorkerId, ExtentTest>)
    ensures r.Keys == m.Keys
    ensures forall k :: k in m && k != w ==> r[k] == m[k]
    ensures w in m ==> r[w] == m[w].AssignAuthor(author)
  {
    if w in m then m[w := m[w].AssignAuthor(author)] else m
  }

  /** Adding categories one call at a time adds them in call order. */
  lemma CategorizedTwice(m: map<WorkerId, ExtentTest>, w: WorkerId, cs: seq<string>, ds: seq<string>)
    ensures Categorized(Categorized(m, w, cs), w, ds) == Categorized(m, w, cs + ds)
  {
    if w in m {
      assert m[w].AssignCategories(cs).AssignCategories(ds) == m[w].AssignCategories(cs + ds);
    }
  }

  /** The test table after lines are written to worker w's current test; the
      table is unchanged when w has none. */
  function Update(m: map<WorkerId, ExtentTest>, w: WorkerId, lines: seq<LogEntry>): (r: map<WorkerId, ExtentTest>)
    ensures r.Keys == m.Keys
    ensures forall k :: k in m && k != w ==> r[k] == m[k]
    ensures w in m ==> r[w] == m[w].Log(lines)
  {
    if w in m then m[w := m[w].Log(lines)] else m
  }

  /** Writing no lines leaves the table as it was. */
  lemma UpdateWithNoLines(m: map<WorkerId, ExtentTest>, w: WorkerId)
    ensures Update(m, w, []) == m
  {
    if w in m {
      assert m[w].Log([]) == m[w];
    }
  }

  /** Writing lines in two calls writes them in call order. */
  lemma UpdateTwice(m: map<WorkerId, ExtentTest>, w: WorkerId, lines: seq<LogEntry>, more: seq<LogEntry>)
    ensures Update(Update(m, w, lines), w, more) == Update(m, w, lines + more)
  {
    if w in m {
      assert m[w].Log(lines).Log(more) == m[w].Log(lines + more);
    }
  }

  /** Writing to a test just put in the table writes to that test. */
  lemma UpdateAt(m: map<WorkerId, ExtentTest>, w: WorkerId, t: ExtentTest, lines: seq<LogEntry>)
    ensures Update(m[w := t], w, lines) == m[w := t.Log(lines)]
  {
  }

  /** Ending a test just put in the table leaves the table as it was before. */
  lemma PutThenRemove(m: map<WorkerId, ExtentTest>, w: WorkerId, t: ExtentTest)
    ensures m[w := t] - {w} == m - {w}
  {
  }

  /** Ending a test drops its entry whatever was written to it. */
  lemma UpdateThenRemove(m: map<WorkerId, ExtentTest>, w: WorkerId, lines: seq<LogEntry>)
    ensures Update(m, w, lines) - {w} == m - {w}
  {
  }

  /** The line logStepWithScreenshot adds. */
  function ScreenshotEntry(status: LogStatus, details: string, sep: char, path: string, attach: AttachOutcome): (e: LogEntry)
    ensures e.status == status
    ensures attach.Attached? ==> e.details == details && e.screenshot == Some(ConvertToRelativePath(sep, path))
    ensures attach.AttachThrew? ==> e.screenshot.None? && |e.details| > |details| && e.details[..|details|] == details
  {
    if attach.Attached? then LogEntry(status, details, Some(ConvertToRelativePath(sep, path)))
    else LogEntry(status, details + " [Screenshot capture failed: " + NullableText(attach.message) + "]", None)
  }
}
