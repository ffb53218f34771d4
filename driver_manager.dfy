/** DriverManager: the per-worker driver registry (a ThreadLocal in the
    original, here a map keyed by an explicit worker id) and the driver
    life cycle: initialize, look up, quit. */
module DriverManager {
  import opened Wrappers
  import opened JavaLang
  import opened Config
  import opened DriverSetupUtils
  import opened DriverOptions
  import opened DriverResolution

  datatype WindowSetting = Maximized | Sized(width: int, height: int)

  /** What configureDriver applies: implicit wait and page-load timeout in
      seconds, and the window. */
  datatype DriverSettings = DriverSettings(implicitWaitSeconds: int, pageLoadSeconds: int, window: WindowSetting)

  /** configureDriver's settings for a configuration: maximised when
      browser.maximize is set, otherwise sized to the configured width and height. */
  function SettingsFor(s: Sources): (d: DriverSettings)
    ensures d.implicitWaitSeconds == ImplicitTimeout(s) && d.pageLoadSeconds == PageLoadTimeout(s)
    ensures d.window.Maximized? <==> BrowserMaximize(s)
    ensures !BrowserMaximize(s) ==> d.window == Sized(BrowserWindowWidth(s), BrowserWindowHeight(s))
  {
    DriverSettings(ImplicitTimeout(s), PageLoadTimeout(s),
      if BrowserMaximize(s) then Maximized else Sized(BrowserWindowWidth(s), BrowserWindowHeight(s)))
  }

  /** A running browser session. */
  class WebDriver {
    const options: BrowserOptions
    /** The settings applied by configureDriver; None until then. */
    var settings: Option<DriverSettings>
    /** How often quit() was called on this session. */
    var quitCalls: nat

    constructor (options: BrowserOptions)
      ensures this.options == options && settings == None && quitCalls == 0
    {
      this.options := options;
      settings := None;
      quitCalls := 0;
    }
  }

  /** How the browser's driver constructor ended; an exception's message may be null. */
  datatype LaunchOutcome = Launched | LaunchFailed(message: Option<string>)

  /** How configureDriver's timeout and window calls ended. */
  datatype ConfigureOutcome = Configured | ConfigureFailed(message: Option<string>)

  const InitFailurePrefix: string := "Driver initialization failed: "
  const NotInitialized: string := "Driver not initialized for current thread"

  /** The browser family the configured name selects: lower-cased, then createDriver's switch. */
  function SelectedBrowser(s: Sources): BrowserFamily {
    BrowserFor(ToLowerCase(Browser(s)))
  }

  /** The system properties after initializeDriver's first steps: the
      WebDriverManager writes, then the offline-mode writes when
      driver.offline.mode is set. */
  function Prepared(s: Sources, m: map<string, string>): map<string, string> {
    var written := WdmWrites(WdmSettingsOf(s), m);
    if DriverOfflineMode(s) then WithOfflineMode(written) else written
  }

  /** The first steps of initializeDriver: configure WebDriverManager, then
      switch it to offline mode when driver.offline.mode is set. */
  method PrepareWebDriverManager(sys: SystemProperties, cm: ConfigManager)
    modifies sys
    ensures sys.props == Prepared(View(old(sys.props), cm.properties), old(sys.props))
    ensures AgreeOnConfig(old(sys.props), sys.props)
  {
    ConfigureWebDriverManagerGlobally(sys, cm);
    if DriverOfflineMode(View(sys.props, cm.properties)) {
      EnableOfflineMode(sys);
    }
  }

  /** createDriver(browserName): resolves the family's driver executable,
      builds its options and starts the browser. The error is the message of
      the exception thrown: "<name> not found" from the resolution, or the
      driver constructor's own. */
  method CreateDriver(sys: SystemProperties, cm: ConfigManager, host: Host, probe: ProbeResult,
                      download: DownloadOutcome, launch: LaunchOutcome, browserName: string)
    returns (r: Result<WebDriver>)
    modifies sys
    ensures var s := View(old(sys.props), cm.properties);
            var kind := KindOf(BrowserFor(browserName));
            var found := Resolve(host, s, probe, download, kind);
      && (found == NotFound ==> r == Err(kind.displayName + " not found"))
      && (found != NotFound && launch.LaunchFailed? ==> r == Err(NullableText(launch.message)))
      && (found != NotFound && launch.Launched? ==>
            && r.Ok? && fresh(r.value)
            && r.value.options == OptionsFor(BrowserFor(browserName), BrowserHeadless(s), BrowserIncognito(s))
            && r.value.settings == None && r.value.quitCalls == 0)
    ensures var kind := KindOf(BrowserFor(browserName));
      sys.props == AfterSetup(Resolve(host, View(old(sys.props), cm.properties), probe, download, kind), kind, old(sys.props))
    ensures AgreeOnConfig(old(sys.props), sys.props)
  {
    var browser := BrowserFor(browserName);
    var kind := KindOf(browser);
    var setup := SetupDriver(sys, cm, host, probe, download, kind);
    if setup.Failed? {
      return Err(setup.error);
    }
    var s := View(sys.props, cm.properties);
    var options := OptionsFor(browser, BrowserHeadless(s), BrowserIncognito(s));
    if launch.LaunchFailed? {
      return Err(NullableText(launch.message));
    }
    var driver := new WebDriver(options);
    r := Ok(driver);
  }

  /** configureDriver(driver): applies the configured timeouts and window;
      when the browser rejects a call, the exception's message is reported. */
  method ConfigureDriver(driver: WebDriver, s: Sources, configure: ConfigureOutcome) returns (r: Outcome)
    modifies driver
    ensures configure.Configured? ==> r == Completed && driver.settings == Some(SettingsFor(s))
    ensures configure.ConfigureFailed? ==>
      r == Failed(NullableText(configure.message)) && driver.settings == old(driver.settings)
    ensures driver.quitCalls == old(driver.quitCalls)
  {
    if configure.ConfigureFailed? {
      return Failed(NullableText(configure.message));
    }
    driver.settings := Some(SettingsFor(s));
    r := Completed;
  }

  /** initializeDriver's outcome, relating the registry before (d0) and
      after (d1), given where the driver was found, the family's display
      name, options and settings: "<name> not found" and a failed launch
      change nothing; a launch registers a new driver for the worker with
      the options, configured unless configureDriver failed. */
  ghost predicate Launches(d0: map<WorkerId, WebDriver>, d1: map<WorkerId, WebDriver>, w: WorkerId,
                           found: Resolution, displayName: string, options: BrowserOptions, settings: DriverSettings,
                           launch: LaunchOutcome, configure: ConfigureOutcome, r: Outcome)
    reads d1.Values
  {
    && (found == NotFound ==>
          r == Failed(InitFailurePrefix + (displayName + " not found")) && d1 == d0)
    && (found != NotFound && launch.LaunchFailed? ==>
          r == Failed(InitFailurePrefix + NullableText(launch.message)) && d1 == d0)
    && (found != NotFound && launch.Launched? ==>
          && w in d1 && d1 == d0[w := d1[w]]
          && d1[w].options == options && d1[w].quitCalls == 0
          && (configure.Configured? ==> r == Completed && d1[w].settings == Some(settings))
          && (configure.ConfigureFailed? ==>
                r == Failed(InitFailurePrefix + NullableText(configure.message)) && d1[w].settings == None))
  }

  /** initializeDriver's outcome (Launches) for the browser family under the
      settings s. */
  ghost predicate Initializes(d0: map<WorkerId, WebDriver>, d1: map<WorkerId, WebDriver>, w: WorkerId,
                              s: Sources, browser: BrowserFamily, host: Host, probe: ProbeResult,
                              download: DownloadOutcome, launch: LaunchOutcome, configure: ConfigureOutcome,
                              r: Outcome)
    reads d1.Values
  {
    var kind := KindOf(browser);
    Launches(d0, d1, w, Resolve(host, s, probe, download, kind), kind.displayName,
             OptionsFor(browser, BrowserHeadless(s), BrowserIncognito(s)), SettingsFor(s), launch, configure, r)
  }

  /** The system properties after initializeDriver, given the settings s
      read at its start and the table m before it: the WebDriverManager and
      offline writes (Prepared), then the driver property of the selected
      family when a driver was set up. */
  function PropsAfterInit(s: Sources, m: map<string, string>, host: Host, probe: ProbeResult,
                          download: DownloadOutcome, browser: BrowserFamily): map<string, string> {
    var kind := KindOf(browser);
    AfterSetup(Resolve(host, s, probe, download, kind), kind, Prepared(s, m))
  }

  /** initializeDriver changes no system property but the WebDriverManager
      keys and the selected family's driver property; it points that
      property at the driver set up (found on disk, downloaded or found in
      the search), and leaves it alone when none was; with
      driver.offline.mode set, downloads end up avoided and the cache forced. */
  lemma PropsAfterInitWrites(s: Sources, m: map<string, string>, host: Host, probe: ProbeResult,
                            download: DownloadOutcome, browser: BrowserFamily, key: string)
    requires key !in WdmKeys && key != KindOf(browser).property
    ensures Kept(m, PropsAfterInit(s, m, host, probe, download, browser), key)
    ensures var kind := KindOf(browser);
            var found := SetupPath(Resolve(host, s, probe, download, kind));
            var r := PropsAfterInit(s, m, host, probe, download, browser);
      && (found.Some? ==> kind.property in r && r[kind.property] == found.value)
      && (found.None? ==> Kept(m, r, kind.property))
    ensures var r := PropsAfterInit(s, m, host, probe, download, browser);
      DriverOfflineMode(s) ==>
        && "wdm.avoidDownload" in r && r["wdm.avoidDownload"] == "true"
        && "wdm.avoidFallback" in r && r["wdm.avoidFallback"] == "false"
        && "wdm.forceCache" in r && r["wdm.forceCache"] == "true"
  {
    var kind := KindOf(browser);
    WdmWritesFrame(WdmSettingsOf(s), m, key);
    WdmWritesFrame(WdmSettingsOf(s), m, kind.property);
  }

  /** The static driverThreadLocal: at most one driver per worker. */
  class DriverRegistry {
    var drivers: map<WorkerId, WebDriver>

    constructor ()
      ensures drivers == map[]
    {
      drivers := map[];
    }

    /** getDriver(): the worker's driver, or the "not initialized" error. */
    function GetDriver(w: WorkerId): (r: Result<WebDriver>)
      reads this
      ensures r.Ok? <==> w in drivers
      ensures r.Ok? ==> r.value == drivers[w]
      ensures r.Err? ==> r.error == NotInitialized
    {
      if w in drivers then Ok(drivers[w]) else Err(NotInitialized)
    }

    /** isDriverInitialized(): whether the worker has a driver, which is
        exactly when getDriver() does not throw. */
    predicate IsDriverInitialized(w: WorkerId)
      reads this
      ensures IsDriverInitialized(w) <==> GetDriver(w).Ok?
    {
      w in drivers
    }

    /** initializeDriver(): reads and lower-cases the browser name, then
        configures WebDriverManager, switches it to offline mode when
        driver.offline.mode is set, and creates, registers and configures the
        driver (LaunchAndRegister). Every failure is rethrown with the
        "Driver initialization failed: " prefix. */
    method InitializeDriver(w: WorkerId, sys: SystemProperties, cm: ConfigManager, host: Host,
                            probe: ProbeResult, download: DownloadOutcome,
                            launch: LaunchOutcome, configure: ConfigureOutcome)
      returns (r: Outcome)
      modifies this, sys
      ensures var s := View(old(sys.props), cm.properties);
        Initializes(old(drivers), drivers, w, s, SelectedBrowser(s), host, probe, download, launch, configure, r)
      ensures var s := View(old(sys.props), cm.properties);
        Resolve(host, s, probe, download, KindOf(SelectedBrowser(s))) != NotFound && launch.Launched? ==>
          w in drivers && fresh(drivers[w])
      ensures var s := View(old(sys.props), cm.properties);
        sys.props == PropsAfterInit(s, old(sys.props), host, probe, download, SelectedBrowser(s))
      ensures AgreeOnConfig(old(sys.props), sys.props)
      ensures w in old(drivers) ==> old(drivers[w]).quitCalls == old(drivers[w].quitCalls)
    {
      ghost var s0 := View(sys.props, cm.properties);
      var browserName := ToLowerCase(Browser(View(sys.props, cm.properties)));
      PrepareWebDriverManager(sys, cm);
      assert View(sys.props, cm.properties) == s0;
      r := LaunchAndRegister(w, sys, cm, host, probe, download, launch, configure, browserName);
    }

    /** The rest of initializeDriver once WebDriverManager is prepared:
        createDriver, then registration and configureDriver. */
    method LaunchAndRegister(w: WorkerId, sys: SystemProperties, cm: ConfigManager, host: Host,
                             probe: ProbeResult, download: DownloadOutcome,
                             launch: LaunchOutcome, configure: ConfigureOutcome, browserName: string)
      returns (r: Outcome)
      modifies this, sys
      ensures Initializes(old(drivers), drivers, w, View(old(sys.props), cm.properties), BrowserFor(browserName),
                          host, probe, download, launch, configure, r)
      ensures var kind := KindOf(BrowserFor(browserName));
        Resolve(host, View(old(sys.props), cm.properties), probe, download, kind) != NotFound && launch.Launched? ==>
          w in drivers && fresh(drivers[w])
      ensures var kind := KindOf(BrowserFor(browserName));
        sys.props == AfterSetup(Resolve(host, View(old(sys.props), cm.properties), probe, download, kind), kind, old(sys.props))
      ensures AgreeOnConfig(old(sys.props), sys.props)
      ensures w in old(drivers) ==> old(drivers[w]).quitCalls == old(drivers[w].quitCalls)
    {
      var created := CreateDriver(sys, cm, host, probe, download, launch, browserName);
      if created.Err? {
        return Failed(InitFailurePrefix + created.error);
      }
      var configured := Register(w, created.value, View(sys.props, cm.properties), configure);
      r := if configured.Failed? then Failed(InitFailurePrefix + configured.error) else Completed;
    }

    /** Registers a freshly created driver for the worker, then runs
        configureDriver on it; the registration stands when configuring
        fails, and a previous driver of the worker is dropped without quit(). */
    method Register(w: WorkerId, driver: WebDriver, s: Sources, configure: ConfigureOutcome) returns (r: Outcome)
      requires driver !in drivers.Values
      modifies this, driver
      ensures drivers == old(drivers)[w := driver]
      ensures configure.Configured? ==> r == Completed && driver.settings == Some(SettingsFor(s))
      ensures configure.ConfigureFailed? ==>
        r == Failed(NullableText(configure.message)) && driver.settings == old(driver.settings)
      ensures driver.quitCalls == old(driver.quitCalls)
      ensures w in old(drivers) ==> old(drivers[w]).quitCalls == old(drivers[w].quitCalls)
    {
      drivers := drivers[w := driver];
      r := ConfigureDriver(driver, s, configure);
    }

    /** quitDriver(): quits the worker's driver, if any, and removes the
        entry even when quit() throws; does nothing for a worker without one. */
    method QuitDriver(w: WorkerId)
      modifies this, if w in drivers then {drivers[w]} else {}
      ensures drivers == old(drivers) - {w}
      ensures w in old(drivers) ==> old(drivers[w]).quitCalls == old(drivers[w].quitCalls) + 1
    {
      if w in drivers {
        var driver := drivers[w];
        driver.quitCalls := driver.quitCalls + 1;
        drivers := drivers - {w};
      }
    }
  }


  /** Quitting twice is quitting once: the second call finds no entry. */
  lemma QuitIdempotent(drivers: map<WorkerId, WebDriver>, w: WorkerId)
    ensures (drivers - {w}) - {w} == drivers - {w}
    ensures w !in drivers - {w}
  {
  }
}
