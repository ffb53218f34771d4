/** TestListener: logs the test life cycle into the report, but only while
    reports.extent.enabled is set, and takes screenshots on pass or failure
    as reports.screenshots.on.pass / .on.failure say. */
module TestListeners {
  import opened Wrappers
  import opened JavaLang
  import opened Config
  import opened Reporting
  import opened Listeners

  class TestListener {
    /** The ConfigManager instance taken when the listener is created. */
    const config: ConfigManager

    constructor (config: ConfigManager)
      ensures this.config == config
    {
      this.config := config;
    }

    /** The configuration the handlers read when they run. */
    function Settings(sys: SystemProperties): Sources
      reads sys
    {
      View(sys.props, config.properties)
    }

    /** onFinish(suite): flushes the report when reports are enabled. */
    method OnFinish(rm: ReportsManager, sys: SystemProperties)
      modifies rm
      ensures !ExtentReportsEnabled(Settings(sys)) ==> unchanged(rm)
      ensures ExtentReportsEnabled(Settings(sys)) ==>
        rm.extent == (if old(rm.extent).Some? then Some(Flushed(old(rm.extent).value)) else None) &&
        rm.testMap == old(rm.testMap)
      ensures rm.Paths() == old(rm.Paths())
    {
      if ExtentReportsEnabled(Settings(sys)) {
        rm.Flush();
      }
    }

    /** addTestMetadata(result): returns at once when reports are disabled. */
    method AddTestMetadataIfEnabled(rm: ReportsManager, w: WorkerId, sys: SystemProperties, r: TestResult)
      modifies rm
      ensures !ExtentReportsEnabled(Settings(sys)) ==> unchanged(rm)
      ensures ExtentReportsEnabled(Settings(sys)) ==>
        rm.testMap == Tagged(old(rm.testMap), w, r) && rm.extent == old(rm.extent)
      ensures rm.Paths() == old(rm.Paths())
    {
      if !ExtentReportsEnabled(Settings(sys)) {
        return;
      }
      AddTestMetadata(rm, w, r);
    }

    /** captureScreenshot(result, status): the image is attached, or a failed
        capture noted, only when reports are enabled. */
    method CaptureScreenshot(rm: ReportsManager, w: WorkerId, sys: SystemProperties, sep: char,
                             shot: ScreenshotOutcome, attach: AttachOutcome)
      modifies rm
      ensures !ExtentReportsEnabled(Settings(sys)) ==> unchanged(rm)
      ensures ExtentReportsEnabled(Settings(sys)) ==>
        rm.testMap == Update(old(rm.testMap), w, ScreenshotLines(sep, shot, attach)) && rm.extent == old(rm.extent)
      ensures rm.Paths() == old(rm.Paths())
    {
      if ExtentReportsEnabled(Settings(sys)) {
        AttachScreenshot(rm, w, sep, shot, attach);
      }
    }

    /** onTestStart(result): with reports enabled, starts the worker's report
        test under StartDescription, assigns its metadata and logs the two
        start lines; otherwise touches nothing. */
    method OnTestStart(rm: ReportsManager, w: WorkerId, sys: SystemProperties, env: ReportEnv, r: TestResult)
      requires rm.Valid()
      modifies rm
      ensures rm.Valid()
      ensures !ExtentReportsEnabled(Settings(sys)) ==> unchanged(rm)
      ensures ExtentReportsEnabled(Settings(sys)) ==>
        rm.testMap == old(rm.testMap)[w := StartedTest(r.methodName, StartDescription(r), r).Log(StartLines(r))] &&
        rm.extent == Some(Started(Instance(old(rm.extent), env), NewTest(r.methodName, StartDescription(r))))
      ensures ExtentReportsEnabled(Settings(sys)) ==> rm.Paths() == PathsAfterStart(old(rm.extent), old(rm.Paths()), env)
    {
      if ExtentReportsEnabled(Settings(sys)) {
        ghost var m0 := rm.testMap;
        var t := rm.StartTest(w, env, r.methodName, StartDescription(r));
        ghost var e1 := rm.extent;
        AddTestMetadataIfEnabled(rm, w, sys, r);
        TaggedAt(m0, w, t, r);
        LogStart(rm, w, r);
        UpdateAt(m0, w, StartedTest(r.methodName, StartDescription(r), r), StartLines(r));
        assert rm.extent == e1;
      }
    }

    /** onTestSuccess(result): with reports enabled, logs the pass and the
        duration, attaches a screenshot when on.pass asks for one, and ends the
        worker's report test. */
    method OnTestSuccess(rm: ReportsManager, w: WorkerId, sys: SystemProperties, sep: char, r: TestResult,
                         shot: ScreenshotOutcome, attach: AttachOutcome)
      requires rm.Valid()
      modifies rm
      ensures rm.Valid()
      ensures !ExtentReportsEnabled(Settings(sys)) ==> unchanged(rm)
      ensures ExtentReportsEnabled(Settings(sys)) ==> rm.testMap == old(rm.testMap) - {w}
      ensures ExtentReportsEnabled(Settings(sys)) && w !in old(rm.testMap) ==> rm.extent == old(rm.extent)
      ensures ExtentReportsEnabled(Settings(sys)) && w in old(rm.testMap) ==>
        rm.extent == Some(Ended(old(rm.extent).value, old(rm.testMap[w]).Log(PassLines(r)
          + if ScreenshotOnPass(Settings(sys)) then ScreenshotLines(sep, shot, attach) else [])))
      ensures rm.Paths() == old(rm.Paths())
    {
      var s := Settings(sys);
      ghost var m0 := rm.testMap;
      ghost var shotLines := if ScreenshotOnPass(s) then ScreenshotLines(sep, shot, attach) else [];
      if ExtentReportsEnabled(s) {
        LogPass(rm, w, r);
      }
      if ScreenshotOnPass(s) {
        CaptureScreenshot(rm, w, sys, sep, shot, attach);
      }
      if ExtentReportsEnabled(s) {
        ShotLogged(m0, w, PassLines(r), ScreenshotOnPass(s), ScreenshotLines(sep, shot, attach));
        assert rm.testMap == Update(m0, w, PassLines(r) + shotLines);
        UpdateThenRemove(m0, w, PassLines(r) + shotLines);
        rm.EndTest(w);
      }
    }

    /** onTestFailure(result): with reports enabled, logs the failure (with
        the stack trace when there is a throwable) and the duration, attaches a
        screenshot when on.failure asks for one, and ends the worker's report
        test. */
    method OnTestFailure(rm: ReportsManager, w: WorkerId, sys: SystemProperties, sep: char, r: TestResult,
                         shot: ScreenshotOutcome, attach: AttachOutcome)
      requires rm.Valid()
      modifies rm
      ensures rm.Valid()
      ensures !ExtentReportsEnabled(Settings(sys)) ==> unchanged(rm)
      ensures ExtentReportsEnabled(Settings(sys)) ==> rm.testMap == old(rm.testMap) - {w}
      ensures ExtentReportsEnabled(Settings(sys)) && w !in old(rm.testMap) ==> rm.extent == old(rm.extent)
      ensures ExtentReportsEnabled(Settings(sys)) && w in old(rm.testMap) ==>
        rm.extent == Some(Ended(old(rm.extent).value, old(rm.testMap[w]).Log(FailLines(r)
          + if ScreenshotOnFailure(Settings(sys)) then ScreenshotLines(sep, shot, attach) else [])))
      ensures rm.Paths() == old(rm.Paths())
    {
      var s := Settings(sys);
      ghost var m0 := rm.testMap;
      ghost var shotLines := if ScreenshotOnFailure(s) then ScreenshotLines(sep, shot, attach) else [];
      if ExtentReportsEnabled(s) {
        LogFailure(rm, w, r);
      }
      if ScreenshotOnFailure(s) {
        CaptureScreenshot(rm, w, sys, sep, shot, attach);
      }
      if ExtentReportsEnabled(s) {
        ShotLogged(m0, w, FailLines(r), ScreenshotOnFailure(s), ScreenshotLines(sep, shot, attach));
        assert rm.testMap == Update(m0, w, FailLines(r) + shotLines);
        UpdateThenRemove(m0, w, FailLines(r) + shotLines);
        rm.EndTest(w);
      }
    }

    /** onTestSkipped(result): with reports enabled, starts a report test
        under SkipDescription when the worker has none, logs the skip and
        ends the worker's report test. */
    method OnTestSkipped(rm: ReportsManager, w: WorkerId, sys: SystemProperties, env: ReportEnv, r: TestResult)
      requires rm.Valid()
      modifies rm
      ensures rm.Valid()
      ensures !ExtentReportsEnabled(Settings(sys)) ==> unchanged(rm)
      ensures ExtentReportsEnabled(Settings(sys)) ==> rm.testMap == old(rm.testMap) - {w}
      ensures ExtentReportsEnabled(Settings(sys)) && w in old(rm.testMap) ==>
        rm.extent == Some(Ended(old(rm.extent).value, old(rm.testMap[w]).Log([SkipLine(r)])))
      ensures ExtentReportsEnabled(Settings(sys)) && w !in old(rm.testMap) ==>
        rm.extent == Some(Ended(Started(Instance(old(rm.extent), env), NewTest(r.methodName, SkipDescription(r))),
                                StartedTest(r.methodName, SkipDescription(r), r).Log([SkipLine(r)])))
      ensures ExtentReportsEnabled(Settings(sys)) ==> rm.Paths() == PathsAfterStart(old(rm.extent), old(rm.Paths()), env)
    {
      if ExtentReportsEnabled(Settings(sys)) {
        // addTestMetadata's own check of reports.extent.enabled passes here.
        StartIfAbsent(rm, w, env, r);
        if w !in old(rm.testMap) {
          PutThenRemove(old(rm.testMap), w, StartedTest(r.methodName, SkipDescription(r), r));
        }
        ghost var m1 := rm.testMap;
        rm.LogStep(w, Skip, "Test skipped: " + ThrowableMessage(r.throwable, NoSkipReason));
        UpdateThenRemove(m1, w, [SkipLine(r)]);
        rm.EndTest(w);
      }
    }
  }
}
