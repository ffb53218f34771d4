/** BaseTest: the per-test set-up and tear-down every test class inherits. A
    browser parameter from the suite file overrides the configured browser
    through the "browser" system property; then the worker's driver is
    initialized, and after the test it is quit. */
module BaseTests {
  import opened Wrappers
  import opened JavaLang
  import opened Config
  import opened DriverSetupUtils
  import opened DriverOptions
  import opened DriverResolution
  import opened DriverManager

  const BrowserKey: string := "browser"
  const SetupFailed: string := "Test setup failed"

  /** The system properties after setUp's override: "browser" is set only for
      a non-null, non-empty parameter. */
  function WithBrowserParameter(props: map<string, string>, browser: Option<string>): (p: map<string, string>)
    ensures browser.Some? && browser.value != [] ==> p == props[BrowserKey := browser.value]
    ensures browser.None? || browser.value == [] ==> p == props
  {
    if browser.Some? && browser.value != [] then props[BrowserKey := browser.value] else props
  }

  /** A non-empty browser parameter becomes the configured browser, whatever
      the configuration file says. */
  lemma ParameterWinsOverFile(props: map<string, string>, file: map<string, string>, browser: string)
    requires browser != []
    ensures Browser(View(WithBrowserParameter(props, Some(browser)), file)) == browser
  {
    ViewReadsConfigKeys(WithBrowserParameter(props, Some(browser)), file, BrowserKey);
  }

  /** A missing or empty parameter changes no setting. */
  lemma NoParameterKeepsSettings(props: map<string, string>, browser: Option<string>)
    requires browser.None? || browser.value == []
    ensures AgreeOnConfig(props, WithBrowserParameter(props, browser))
  {
  }

  /** The override is never undone: a later test run without a parameter on
      the same JVM still gets the earlier parameter's browser. */
  lemma OverrideOutlivesTest(props: map<string, string>, file: map<string, string>, browser: string)
    requires browser != []
    ensures Browser(View(WithBrowserParameter(WithBrowserParameter(props, Some(browser)), None), file)) == browser
  {
    ParameterWinsOverFile(props, file, browser);
  }

  /** getTestDataPath(fileName): the configured prefix followed directly by the
      name, with no separator put in between. */
  function TestDataFile(s: Sources, fileName: string): (path: string)
    ensures |path| == |TestDataPath(s)| + |fileName|
    ensures path[..|TestDataPath(s)|] == TestDataPath(s) && path[|TestDataPath(s)|..] == fileName
  {
    TestDataPath(s) + fileName
  }

  /** With testdata.path set nowhere, data files are read from the
      default directory. */
  lemma DefaultTestDataFile(s: Sources, fileName: string)
    requires "testdata.path" !in s.system && "testdata.path" !in s.file
    ensures TestDataFile(s, fileName) == "src/test/resources/testdata/" + fileName
  {
  }

  /** A prefix without a trailing separator runs into the file name. */
  lemma PrefixWithoutSeparatorJoinsName()
    ensures TestDataFile(Sources(map["testdata.path" := "data"], map[]), "users.json") == "datausers.json"
  {
  }

  class BaseTest {
    /** The ConfigManager instance taken when the test object is created. */
    const config: ConfigManager

    constructor (config: ConfigManager)
      ensures this.config == config
    {
      this.config := config;
    }

    /** setUp(browser, method): applies the browser parameter, then
        initializes the worker's driver. `init` is what initializeDriver
        returned; its failure is rethrown as "Test setup failed" with it as
        the cause. */
    method SetUp(reg: DriverRegistry, w: WorkerId, sys: SystemProperties, browser: Option<string>,
                 host: Host, probe: ProbeResult, download: DownloadOutcome,
                 launch: LaunchOutcome, configure: ConfigureOutcome)
      returns (r: Outcome, init: Outcome)
      modifies reg, sys
      ensures var s := View(WithBrowserParameter(old(sys.props), browser), config.properties);
        Initializes(old(reg.drivers), reg.drivers, w, s, SelectedBrowser(s), host, probe, download, launch, configure, init)
      ensures r == if init.Failed? then Failed(SetupFailed) else Completed
      ensures var s := View(WithBrowserParameter(old(sys.props), browser), config.properties);
        sys.props == PropsAfterInit(s, WithBrowserParameter(old(sys.props), browser), host, probe, download, SelectedBrowser(s))
      ensures AgreeOnConfig(WithBrowserParameter(old(sys.props), browser), sys.props)
      ensures var s := View(WithBrowserParameter(old(sys.props), browser), config.properties);
        Resolve(host, s, probe, download, KindOf(SelectedBrowser(s))) != NotFound && launch.Launched? ==>
          w in reg.drivers && fresh(reg.drivers[w])
    {
      if browser.Some? && browser.value != [] {
        sys.SetProperty(BrowserKey, browser.value);
      }
      init := reg.InitializeDriver(w, sys, config, host, probe, download, launch, configure);
      r := if init.Failed? then Failed(SetupFailed) else Completed;
    }

    /** tearDown(method): quits and forgets the worker's driver; it never
        fails, and a second call finds nothing to quit. */
    method TearDown(reg: DriverRegistry, w: WorkerId)
      modifies reg, if w in reg.drivers then {reg.drivers[w]} else {}
      ensures reg.drivers == old(reg.drivers) - {w}
      ensures w in old(reg.drivers) ==> old(reg.drivers[w]).quitCalls == old(reg.drivers[w].quitCalls) + 1
    {
      reg.QuitDriver(w);
    }

    /** getTestDataPath(fileName), read through the configuration at call time. */
    function GetTestDataPath(sys: SystemProperties, fileName: string): (path: string)
      reads sys
      ensures path == TestDataFile(View(sys.props, config.properties), fileName)
    {
      TestDataPath(View(sys.props, config.properties)) + fileName
    }
  }
}
