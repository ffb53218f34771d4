/** ExtentReportsListener: the ungated listener. It writes every test's life
    cycle into the report whatever reports.extent.enabled says, always takes a
    screenshot on failure, and takes one on pass only when the JVM system
    property reports.screenshots.on.pass says so. */
module ReportsListener {
  import opened Wrappers
  import opened JavaLang
  import opened Config
  import opened Reporting
  import opened Listeners

  const ScreenshotOnPassKey: string := "reports.screenshots.on.pass"

  /** shouldCaptureScreenshotOnPass: Boolean.parseBoolean of the system
      property, "false" when it is unset. The configuration file is not read. */
  function ShouldCaptureScreenshotOnPass(props: map<string, string>): (b: bool)
    ensures b <==> ScreenshotOnPassKey in props && ToLowerCase(props[ScreenshotOnPassKey]) == "true"
  {
    var captureOnPass := if ScreenshotOnPassKey in props then props[ScreenshotOnPassKey] else "false";
    ParseBooleanIsLowerTrue(Some(captureOnPass));
    ParseBoolean(Some(captureOnPass))
  }

  /** When the system property is set, both listeners read the same answer
      from it. */
  lemma ListenersAgreeOnSystemProperty(props: map<string, string>, file: map<string, string>)
    requires ScreenshotOnPassKey in props
    ensures ShouldCaptureScreenshotOnPass(props) == ScreenshotOnPass(Sources(props, file))
  {
    ParseBooleanIsLowerTrue(Some(props[ScreenshotOnPassKey]));
  }

  /** A true setting that only the configuration file holds switches pass
      screenshots on for TestListener but not for this listener. */
  lemma ListenersDisagreeOnFileSetting()
    ensures ScreenshotOnPass(Sources(map[], map[ScreenshotOnPassKey := "true"]))
    ensures !ShouldCaptureScreenshotOnPass(map[])
  {
    ParseBooleanIsLowerTrue(Some("true"));
  }

  class ExtentReportsListener {
    constructor ()
    {
    }

    /** onFinish(suite): flushes the report. */
    method OnFinish(rm: ReportsManager)
      modifies rm
      ensures rm.extent == (if old(rm.extent).Some? then Some(Flushed(old(rm.extent).value)) else None)
      ensures rm.testMap == old(rm.testMap)
      ensures rm.Paths() == old(rm.Paths())
    {
      rm.Flush();
    }

    /** onTestStart(result): starts the worker's report test under
        StartDescription, assigns its metadata and logs the two start lines. */
    method OnTestStart(rm: ReportsManager, w: WorkerId, env: ReportEnv, r: TestResult)
      requires rm.Valid()
      modifies rm
      ensures rm.Valid()
      ensures rm.testMap == old(rm.testMap)[w := StartedTest(r.methodName, StartDescription(r), r).Log(StartLines(r))]
      ensures rm.extent == Some(Started(Instance(old(rm.extent), env), NewTest(r.methodName, StartDescription(r))))
      ensures rm.Paths() == PathsAfterStart(old(rm.extent), old(rm.Paths()), env)
    {
      ghost var m0 := rm.testMap;
      var t := rm.StartTest(w, env, r.methodName, StartDescription(r));
      ghost var e1 := rm.extent;
      AddTestMetadata(rm, w, r);
      TaggedAt(m0, w, t, r);
      LogStart(rm, w, r);
      UpdateAt(m0, w, StartedTest(r.methodName, StartDescription(r), r), StartLines(r));
      assert rm.extent == e1;
    }

    /** onTestSuccess(result): logs the pass and the duration, attaches a
        screenshot when the system property asks for one, and ends the
        worker's report test. */
    method OnTestSuccess(rm: ReportsManager, w: WorkerId, sys: SystemProperties, sep: char, r: TestResult,
                         shot: ScreenshotOutcome, attach: AttachOutcome)
      requires rm.Valid()
      modifies rm
      ensures rm.Valid()
      ensures rm.testMap == old(rm.testMap) - {w}
      ensures w !in old(rm.testMap) ==> rm.extent == old(rm.extent)
      ensures w in old(rm.testMap) ==>
        rm.extent == Some(Ended(old(rm.extent).value, old(rm.testMap[w]).Log(PassLines(r)
          + if ShouldCaptureScreenshotOnPass(sys.props) then ScreenshotLines(sep, shot, attach) else [])))
      ensures rm.Paths() == old(rm.Paths())
    {
      ghost var m0 := rm.testMap;
      var onPass := ShouldCaptureScreenshotOnPass(sys.props);
      LogPass(rm, w, r);
      if onPass {
        AttachScreenshot(rm, w, sep, shot, attach);
      }
      ShotLogged(m0, w, PassLines(r), onPass, ScreenshotLines(sep, shot, attach));
      UpdateThenRemove(m0, w, PassLines(r) + if onPass then ScreenshotLines(sep, shot, attach) else []);
      rm.EndTest(w);
    }

    /** onTestFailure(result): logs the failure (with the stack trace when
        there is a throwable) and the duration, always attempts a screenshot,
        and ends the worker's report test. */
    method OnTestFailure(rm: ReportsManager, w: WorkerId, sep: char, r: TestResult,
                         shot: ScreenshotOutcome, attach: AttachOutcome)
      requires rm.Valid()
      modifies rm
      ensures rm.Valid()
      ensures rm.testMap == old(rm.testMap) - {w}
      ensures w !in old(rm.testMap) ==> rm.extent == old(rm.extent)
      ensures w in old(rm.testMap) ==>
        rm.extent == Some(Ended(old(rm.extent).value, old(rm.testMap[w]).Log(FailLines(r) + ScreenshotLines(sep, shot, attach))))
      ensures rm.Paths() == old(rm.Paths())
    {
      ghost var m0 := rm.testMap;
      LogFailure(rm, w, r);
      AttachScreenshot(rm, w, sep, shot, attach);
      UpdateTwice(m0, w, FailLines(r), ScreenshotLines(sep, shot, attach));
      UpdateThenRemove(m0, w, FailLines(r) + ScreenshotLines(sep, shot, attach));
      rm.EndTest(w);
    }

    /** onTestSkipped(result): starts a report test under SkipDescription
        when the worker has none, logs the skip and ends the worker's report
        test. */
    method OnTestSkipped(rm: ReportsManager, w: WorkerId, env: ReportEnv, r: TestResult)
      requires rm.Valid()
      modifies rm
      ensures rm.Valid()
      ensures rm.testMap == old(rm.testMap) - {w}
      ensures w in old(rm.testMap) ==>
        rm.extent == Some(Ended(old(rm.extent).value, old(rm.testMap[w]).Log([SkipLine(r)])))
      ensures w !in old(rm.testMap) ==>
        rm.extent == Some(Ended(Started(Instance(old(rm.extent), env), NewTest(r.methodName, SkipDescription(r))),
                                StartedTest(r.methodName, SkipDescription(r), r).Log([SkipLine(r)])))
      ensures rm.Paths() == PathsAfterStart(old(rm.extent), old(rm.Paths()), env)
    {
      StartIfAbsent(rm, w, env, r);
      if w !in old(rm.testMap) {
        PutThenRemove(old(rm.testMap), w, StartedTest(r.methodName, SkipDescription(r), r));
      }
      ghost var m1 := rm.testMap;
      rm.LogStep(w, Skip, "Test skipped: " + ThrowableMessage(r.throwable, NoSkipReason));
      UpdateThenRemove(m1, w, [SkipLine(r)]);
      rm.EndTest(w);
    }
  }
}
