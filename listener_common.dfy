/** What TestListener and ExtentReportsListener share: the test result TestNG
    hands them, the texts they write into the report, the screenshot path they
    pass on, and the metadata (categories and author) they assign. */
module Listeners {
  import opened Wrappers
  import opened JavaLang
  import opened Reporting

  /** A throwable: its getMessage() (possibly null) and the text getStackTrace
      builds from it. */
  datatype Throwable = Throwable(message: Option<string>, stackTrace: string)

  /** The parts of TestNG's ITestResult the listeners read. */
  datatype TestResult = TestResult(
    methodName: string,
    className: string,
    description: Option<string>,
    groups: Option<seq<string>>,
    throwable: Option<Throwable>,
    startMillis: int,
    endMillis: int)

  /** What ScreenshotUtils.captureScreenshot did: saved the image at a path,
      returned null (the copy failed), or threw (no driver for the worker). */
  datatype ScreenshotOutcome = Captured(path: string) | NotCaptured | CaptureThrew(message: Option<string>)

  // ---------------------------------------------------------------------------
  // Texts

  /** The description a started test gets: the method's own when it is
      non-null and non-empty, else "Test method: " + name. */
  function StartDescription(r: TestResult): (d: string)
    ensures r.description.Some? && r.description.value != [] ==> d == r.description.value
    ensures r.description.None? || r.description.value == [] ==> d == "Test method: " + r.methodName
  {
    if r.description.Some? && r.description.value != [] then r.description.value
    else "Test method: " + r.methodName
  }

  /** The description a test started on skip gets: "Test skipped" only when
      the method has none; an empty one is kept. */
  function SkipDescription(r: TestResult): (d: string)
    ensures r.description.Some? ==> d == r.description.value
    ensures r.description.None? ==> d == "Test skipped"
  {
    if r.description.Some? then r.description.value else "Test skipped"
  }

  const UnknownFailure: string := "Test failed with unknown error"
  const NoSkipReason: string := "Test skipped"

  /** `throwable != null ? throwable.getMessage() : fallback`: the message
      (the text "null" when it has none), or the fallback when there is no
      throwable. The failure line uses UnknownFailure, the skip line
      NoSkipReason. */
  function ThrowableMessage(t: Option<Throwable>, fallback: string): (m: string)
    ensures t.None? ==> m == fallback
    ensures t.Some? && t.value.message.Some? ==> m == t.value.message.value
    ensures t.Some? && t.value.message.None? ==> m == "null"
  {
    if t.Some? then NullableText(t.value.message) else fallback
  }

  function StartLines(r: TestResult): seq<LogEntry> {
    [LogEntry(Info, "Test started: " + r.methodName, None),
     LogEntry(Info, "Test class: " + r.className, None)]
  }

  /** "Execution time: <end - start> ms". */
  function DurationLine(r: TestResult): LogEntry {
    LogEntry(Info, "Execution time: " + IntToString(r.endMillis - r.startMillis) + " ms", None)
  }

  function PassLines(r: TestResult): seq<LogEntry> {
    [LogEntry(Pass, "Test passed successfully", None), DurationLine(r)]
  }

  /** The lines a failure writes: the message, the stack trace only when
      there is a throwable, and the duration. */
  function FailLines(r: TestResult): (lines: seq<LogEntry>)
    ensures |lines| == if r.throwable.Some? then 3 else 2
    ensures lines[0] == LogEntry(Fail, "Test failed: " + ThrowableMessage(r.throwable, UnknownFailure), None)
    ensures lines[|lines| - 1] == DurationLine(r)
    ensures forall i :: 0 <= i < |lines| - 1 ==> lines[i].status == Fail
  {
    [LogEntry(Fail, "Test failed: " + ThrowableMessage(r.throwable, UnknownFailure), None)]
      + (if r.throwable.Some? then [LogEntry(Fail, "Stack trace: <pre>" + r.throwable.value.stackTrace + "</pre>", None)] else [])
      + [DurationLine(r)]
  }

  function SkipLine(r: TestResult): LogEntry {
    LogEntry(Skip, "Test skipped: " + ThrowableMessage(r.throwable, NoSkipReason), None)
  }

  // ---------------------------------------------------------------------------
  // Screenshots

  /** getRelativeScreenshotPath: "./screenshots/" and the text after the last
      File.separator (the whole path when there is none). */
  function RelativeScreenshotPath(sep: char, path: string): (r: string)
    ensures |r| >= |ScreenshotsPrefix| && r[..|ScreenshotsPrefix|] == ScreenshotsPrefix
    ensures var f := r[|ScreenshotsPrefix|..];
      sep !in f && |f| <= |path| && f == path[|path| - |f|..] && (sep in path ==> path[|path| - |f| - 1] == sep)
    ensures sep !in path ==> r == ScreenshotsPrefix + path
  {
    ScreenshotsPrefix + SubstringAfterLast(path, sep)
  }

  /** The listeners convert the path before the manager converts it again.
      The second conversion keeps the listener's path whenever the file name
      holds no '/'. */
  lemma SecondConversionKeepsPath(sep: char, path: string)
    requires IsSeparator(sep)
    requires '/' !in SubstringAfterLast(path, sep)
    ensures ConvertToRelativePath(sep, RelativeScreenshotPath(sep, path)) == RelativeScreenshotPath(sep, path)
  {
    ConvertKeepsFileName(sep, SubstringAfterLast(path, sep));
  }

  /** On Unix the separator is '/', so the report always receives the
      listener's path unchanged. */
  lemma UnixPathReachesReport(path: string)
    ensures ConvertToRelativePath('/', RelativeScreenshotPath('/', path)) == RelativeScreenshotPath('/', path)
  {
    SecondConversionKeepsPath('/', path);
  }

  /** The lines a screenshot attempt writes. */
  function ScreenshotLines(sep: char, shot: ScreenshotOutcome, attach: AttachOutcome): (lines: seq<LogEntry>)
    ensures shot.NotCaptured? <==> lines == []
    ensures shot.Captured? ==>
      lines == [ScreenshotEntry(Info, "Screenshot captured", sep, RelativeScreenshotPath(sep, shot.path), attach)]
    ensures shot.CaptureThrew? ==>
      lines == [LogEntry(Warning, "Failed to capture screenshot: " + NullableText(shot.message), None)]
  {
    match shot
    case Captured(path) => [ScreenshotEntry(Info, "Screenshot captured", sep, RelativeScreenshotPath(sep, path), attach)]
    case NotCaptured => []
    case CaptureThrew(message) => [LogEntry(Warning, "Failed to capture screenshot: " + NullableText(message), None)]
  }

  /** captureAndAttachScreenshot: attach the captured image, note a failed
      capture, or do nothing when no image was saved. */
  method AttachScreenshot(rm: ReportsManager, w: WorkerId, sep: char, shot: ScreenshotOutcome, attach: AttachOutcome)
    modifies rm
    ensures rm.testMap == Update(old(rm.testMap), w, ScreenshotLines(sep, shot, attach))
    ensures rm.extent == old(rm.extent) && rm.Paths() == old(rm.Paths())
  {
    match shot
    case Captured(path) =>
      var relativePath := RelativeScreenshotPath(sep, path);
      rm.LogStepWithScreenshot(w, Info, "Screenshot captured", sep, relativePath, attach);
    case NotCaptured =>
      UpdateWithNoLines(rm.testMap, w);
    case CaptureThrew(message) =>
      rm.LogStep(w, Warning, "Failed to capture screenshot: " + NullableText(message));
  }

  // ---------------------------------------------------------------------------
  // Metadata

  /** The class's simple name: the text after its last '.'. */
  function SimpleClassName(className: string): (r: string)
    ensures '.' !in r && |r| <= |className| && r == className[|className| - |r|..]
    ensures '.' in className ==> className[|className| - |r| - 1] == '.'
    ensures '.' !in className ==> r == className
  {
    SubstringAfterLast(className, '.')
  }

  function GroupsOf(r: TestResult): seq<string> {
    if r.groups.Some? then r.groups.value else []
  }

  /** The categories in the order they are assigned: the simple class name,
      then every group in array order. */
  function MetadataCategories(r: TestResult): (cs: seq<string>)
    ensures |cs| == 1 + |GroupsOf(r)|
    ensures cs[0] == SimpleClassName(r.className)
    ensures cs[1..] == GroupsOf(r)
  {
    [SimpleClassName(r.className)] + GroupsOf(r)
  }

  const Author: string := "Test Team"

  /** A test with the result's metadata added: its categories and then the
      author. */
  function WithMetadata(t: ExtentTest, r: TestResult): ExtentTest {
    t.(categories := t.categories + MetadataCategories(r), authors := t.authors + [Author])
  }

  /** A test as a handler starts it: new, with the result's metadata. */
  function StartedTest(name: string, description: string, r: TestResult): ExtentTest {
    WithMetadata(NewTest(name, description), r)
  }

  /** The test table after addTestMetadata on worker w. */
  function Tagged(m: map<WorkerId, ExtentTest>, w: WorkerId, r: TestResult): (t: map<WorkerId, ExtentTest>)
    ensures t.Keys == m.Keys
    ensures forall k :: k in m && k != w ==> t[k] == m[k]
    ensures w in m ==> t[w] == WithMetadata(m[w], r)
  {
    if w in m then m[w := WithMetadata(m[w], r)] else m
  }

  /** addTestMetadata: the simple class name and each group as categories,
      then the author "Test Team", all on the worker's current test. */
  method AddTestMetadata(rm: ReportsManager, w: WorkerId, r: TestResult)
    modifies rm
    ensures rm.testMap == Tagged(old(rm.testMap), w, r)
    ensures rm.extent == old(rm.extent) && rm.Paths() == old(rm.Paths())
  {
    ghost var m0 := rm.testMap;
    rm.AssignCategory(w, SimpleClassName(r.className));
    AssignGroups(rm, w, GroupsOf(r));
    CategorizedTwice(m0, w, [SimpleClassName(r.className)], GroupsOf(r));
    rm.AssignAuthor(w, Author);
    TaggedInSteps(m0, w, r);
  }

  /** addTestMetadata's calls, taken together, tag the test: categories in
      order, then the author. */
  lemma TaggedInSteps(m: map<WorkerId, ExtentTest>, w: WorkerId, r: TestResult)
    ensures Authored(Categorized(m, w, [SimpleClassName(r.className)] + GroupsOf(r)), w, Author) == Tagged(m, w, r)
  {
    assert [SimpleClassName(r.className)] + GroupsOf(r) == MetadataCategories(r);
  }

  /** Tagging a test just put in the table tags that test. */
  lemma TaggedAt(m: map<WorkerId, ExtentTest>, w: WorkerId, t: ExtentTest, r: TestResult)
    ensures Tagged(m[w := t], w, r) == m[w := WithMetadata(t, r)]
  {
  }

  /** The loop over the method's groups, each assigned as a category in
      array order. */
  method AssignGroups(rm: ReportsManager, w: WorkerId, groups: seq<string>)
    modifies rm
    ensures rm.testMap == Categorized(old(rm.testMap), w, groups)
    ensures rm.extent == old(rm.extent) && rm.Paths() == old(rm.Paths())
  {
    assert Categorized(rm.testMap, w, []) == rm.testMap by {
      if w in rm.testMap {
        assert rm.testMap[w].AssignCategories([]) == rm.testMap[w];
      }
    }
    for i := 0 to |groups|
      invariant rm.testMap == Categorized(old(rm.testMap), w, groups[..i])
      invariant rm.extent == old(rm.extent) && rm.Paths() == old(rm.Paths())
    {
      rm.AssignCategory(w, groups[i]);
      CategorizedTwice(old(rm.testMap), w, groups[..i], [groups[i]]);
      assert groups[..i + 1] == groups[..i] + [groups[i]];
    }
    assert groups[..|groups|] == groups;
  }

  // ---------------------------------------------------------------------------
  // Steps both listeners take

  /** The start onTestSkipped makes when the worker has no report test:
      under SkipDescription, with the result's metadata. */
  method StartIfAbsent(rm: ReportsManager, w: WorkerId, env: ReportEnv, r: TestResult)
    requires rm.Valid()
    modifies rm
    ensures rm.Valid()
    ensures w in old(rm.testMap) ==> rm.testMap == old(rm.testMap) && rm.extent == old(rm.extent)
    ensures w !in old(rm.testMap) ==>
      rm.testMap == old(rm.testMap)[w := StartedTest(r.methodName, SkipDescription(r), r)] &&
      rm.extent == Some(Started(Instance(old(rm.extent), env), NewTest(r.methodName, SkipDescription(r))))
    ensures rm.Paths() == PathsAfterStart(old(rm.extent), old(rm.Paths()), env)
  {
    if rm.GetTest(w).None? {
      ghost var m0 := rm.testMap;
      var t := rm.StartTest(w, env, r.methodName, SkipDescription(r));
      AddTestMetadata(rm, w, r);
      TaggedAt(m0, w, t, r);
    }
  }

  /** The two lines onTestStart logs. */
  method LogStart(rm: ReportsManager, w: WorkerId, r: TestResult)
    modifies rm
    ensures rm.testMap == Update(old(rm.testMap), w, StartLines(r)) && rm.extent == old(rm.extent)
    ensures rm.Paths() == old(rm.Paths())
  {
    ghost var m0 := rm.testMap;
    rm.LogStep(w, Info, "Test started: " + r.methodName);
    rm.LogStep(w, Info, "Test class: " + r.className);
    UpdateTwice(m0, w, [StartLines(r)[0]], [StartLines(r)[1]]);
    assert [StartLines(r)[0]] + [StartLines(r)[1]] == StartLines(r);
  }

  /** The two lines onTestSuccess logs. */
  method LogPass(rm: ReportsManager, w: WorkerId, r: TestResult)
    modifies rm
    ensures rm.testMap == Update(old(rm.testMap), w, PassLines(r)) && rm.extent == old(rm.extent)
    ensures rm.Paths() == old(rm.Paths())
  {
    ghost var m0 := rm.testMap;
    rm.LogStep(w, Pass, "Test passed successfully");
    rm.LogStep(w, Info, "Execution time: " + IntToString(r.endMillis - r.startMillis) + " ms");
    UpdateTwice(m0, w, [PassLines(r)[0]], [PassLines(r)[1]]);
    assert [PassLines(r)[0]] + [PassLines(r)[1]] == PassLines(r);
  }

  /** The failure lines of onTestFailure: the message, the stack trace when
      there is a throwable, and the duration. */
  method LogFailure(rm: ReportsManager, w: WorkerId, r: TestResult)
    modifies rm
    ensures rm.testMap == Update(old(rm.testMap), w, FailLines(r)) && rm.extent == old(rm.extent)
    ensures rm.Paths() == old(rm.Paths())
  {
    ghost var m0 := rm.testMap;
    var first := LogEntry(Fail, "Test failed: " + ThrowableMessage(r.throwable, UnknownFailure), None);
    rm.LogStep(w, Fail, "Test failed: " + ThrowableMessage(r.throwable, UnknownFailure));
    ghost var written := [first];
    if r.throwable.Some? {
      var trace := LogEntry(Fail, "Stack trace: <pre>" + r.throwable.value.stackTrace + "</pre>", None);
      rm.LogStep(w, Fail, "Stack trace: <pre>" + r.throwable.value.stackTrace + "</pre>");
      UpdateTwice(m0, w, written, [trace]);
      written := written + [trace];
    }
    rm.LogStep(w, Info, "Execution time: " + IntToString(r.endMillis - r.startMillis) + " ms");
    UpdateTwice(m0, w, written, [DurationLine(r)]);
    assert written + [DurationLine(r)] == FailLines(r);
  }

  /** The lines of a handler followed, when its screenshot flag is set, by
      the screenshot lines. */
  lemma ShotLogged(m: map<WorkerId, ExtentTest>, w: WorkerId, lines: seq<LogEntry>, shoot: bool, shotLines: seq<LogEntry>)
    ensures (if shoot then Update(Update(m, w, lines), w, shotLines) else Update(m, w, lines))
      == Update(m, w, lines + if shoot then shotLines else [])
  {
    if shoot {
      UpdateTwice(m, w, lines, shotLines);
    } else {
      assert lines + [] == lines;
    }
  }
}
