# Selenium/TestNG automation framework: a Dafny model of its core

The framework drives Chrome, Firefox or Edge through Selenium WebDriver for
TestNG test classes. This project models the parts of it that decide things:

- **Configuration** (`Config`). Every setting is read first from the JVM's
  system properties, then from `application.properties`, then falls back to a
  built-in default. `Boolean.parseBoolean` and `Integer.parseInt` parse the
  values. `ConfigManager.getInstance` is a lazily filled singleton.
- **Driver executables** (`DriverSetupUtils`, `DriverResolution`). For the
  chosen browser, `setup*Driver` tries these in order:
  1. the local driver directory;
  2. the cache directory;
  3. a WebDriverManager download, when auto-download is on and the
     connectivity probe answers 200;
  4. the entries of `PATH`;
  5. six fixed installation directories.

  Only an empty-handed search fails. It also covers the `wdm.*` and proxy
  system properties written before a driver is created, offline mode, and the
  command-line entry point that pre-downloads every driver.
- **Browser options** (`DriverOptions`). The browser name picks a family.
  The family and the headless and incognito settings fix the argument list.
- **The per-worker driver registry** (`DriverManager`). This is the
  `ThreadLocal<WebDriver>` with `initializeDriver`, `getDriver`,
  `quitDriver` and `isDriverInitialized`.
- **The retry analyzer** (`Retry`). A counter grants retries while it is
  below `test.retry.count`.
- **The report registry** (`Reporting`). This is `ExtentReportsManager`: the
  report, created on first use, and the table from worker to current report
  test. Logging calls go to the current test and do nothing without one.
  Screenshot paths are converted to `./screenshots/<file>`.
- **The two TestNG listeners** (`Listeners`, `TestListeners`,
  `ReportsListener`). They drive that registry through a test's life cycle.
  `TestListener` acts only while `reports.extent.enabled` is set and takes
  screenshots as `reports.screenshots.on.pass` / `.on.failure` say.
  `ExtentReportsListener` acts always, takes a screenshot on every failure,
  and on a pass only when the *system property* asks for one.
- **`BaseTest`** (`BaseTests`). `setUp` applies the browser parameter, then
  initializes the driver. `tearDown` quits it. `getTestDataPath` builds a
  data file's path.

The model represents the following:

- Java's `ThreadLocal` and the report's `testMap` are maps keyed by an
  explicit `WorkerId`.
- `null` is `Option`, and exceptions are `Result`/`Outcome` values.
- The JVM's system-property table is the class `JavaLang.SystemProperties`,
  and the loaded file is a `map`.
- Things outside the program are *oracle parameters*:
  - the file system (which paths exist and which are executable);
  - the `PATH` variable;
  - the HTTP probe;
  - WebDriverManager's download, which either fails with a message or
    completes with the path of the driver it exported;
  - the browser driver's constructor;
  - `configureDriver`'s window calls;
  - the screenshot capture.

Where the source changes state in place, the model does too:

- The registry, the report manager, the retry counter and the singleton are
  classes whose methods assign fields. Each method is proved against a
  function of the old state.
- `findDriverInPath` keeps its two loops.
- The listeners' metadata step keeps its loop over the groups.

Option building, path conversion and the lookups are functions.

## Model

All source paths are under `src/main/java/com/automation/framework/`, written
out in full below.

A function that only computes a value has no row of its own. Its meaning is
stated by the rows of the lemmas and methods about it, and those rows name it:
`ParseBoolean`, `IntToString`, the typed getters such as `Config.Browser`,
`Retry.Decide`, `DriverResolution.Resolve`, `Reporting.ReportPath` and
`Reporting.ScreenshotDir`.

| member | source | states |
|---|---|---|
| JavaLang.SystemProperties.GetProperty | src/main/java/com/automation/framework/config/ConfigManager.java:47 | `System.getProperty` returns a value exactly when the key is set, and then the value stored |
| JavaLang.SystemProperties.SetProperty | src/main/java/com/automation/framework/base/BaseTest.java:32 | `System.setProperty` changes that one key and nothing else |
| JavaLang.SystemProperties.ClearProperty | src/main/java/com/automation/framework/utils/DriverSetupUtils.java:246-251 | `System.clearProperty` removes that one key and nothing else |
| JavaLang.ToLowerCaseIdempotent | src/main/java/com/automation/framework/driver/DriverManager.java:34 | lower-casing a lower-cased name changes nothing |
| JavaLang.ToLowerCase | src/main/java/com/automation/framework/driver/DriverManager.java:34 | `toLowerCase` keeps the length and maps each character to its lower-case form |
| JavaLang.EqualsIgnoreCaseIsLowerEqual | src/main/java/com/automation/framework/config/ConfigManager.java:59-66 | two strings are equal ignoring case iff their lower-cased forms are equal (the test `Boolean.parseBoolean` applies) |
| JavaLang.ParseBooleanIsLowerTrue | src/main/java/com/automation/framework/config/ConfigManager.java:59-66 | `Boolean.parseBoolean` (`ParseBoolean`) is true exactly for a non-null value equal to "true" ignoring case |
| JavaLang.ParseInt | src/main/java/com/automation/framework/config/ConfigManager.java:68-78 | `Integer.parseInt` succeeds exactly for an optional sign followed by at least one decimal digit whose value is a Java int, and returns that value; null and every other text throw |
| JavaLang.ParseIntRejects | src/main/java/com/automation/framework/config/ConfigManager.java:68-78 | null, the empty text, a lone sign, a non-digit after the sign and a value outside int are each rejected |
| JavaLang.ParseIntExamples | src/main/java/com/automation/framework/config/ConfigManager.java:68-78 | "abc", "1.5", "-", "" and " 7" are rejected; "+42" reads 42 and "-7" reads -7 |
| JavaLang.ParseIntOverflowExample | src/main/java/com/automation/framework/config/ConfigManager.java:68-78 | "2147483648", one more than the largest int, is rejected |
| JavaLang.ParseIntRoundTrip | src/main/java/com/automation/framework/config/ConfigManager.java:68-78 | the decimal text `IntToString` writes for every Java int parses back to that int |
| JavaLang.LastIndexOf | src/main/java/com/automation/framework/listeners/TestListener.java:179 | `lastIndexOf` is -1 iff the character is absent; otherwise it finds the character with none after it |
| JavaLang.SubstringAfterLast | src/main/java/com/automation/framework/listeners/TestListener.java:179 | `substring(lastIndexOf(c) + 1)` is the longest suffix free of `c`, preceded by `c`, and the whole string when `c` is absent |
| JavaLang.Split | src/main/java/com/automation/framework/driver/DriverManager.java:402 | `split` on the path separator: no piece holds the separator, a string without it comes back whole (an empty PATH gives one empty entry), and trailing empty pieces are dropped |
| JavaLang.SplitJoin | src/main/java/com/automation/framework/driver/DriverManager.java:402 | rejoining the PATH entries gives back the PATH value, less only separators at its end |
| Config.GetProperty | src/main/java/com/automation/framework/config/ConfigManager.java:46-52 | the system property wins, then the file value; the result is null iff neither source has the key |
| Config.GetPropertyOr | src/main/java/com/automation/framework/config/ConfigManager.java:54-57 | the default is returned only when both sources lack the key; otherwise the value that `getProperty` finds |
| Config.GetBooleanProperty | src/main/java/com/automation/framework/config/ConfigManager.java:59-61 | true iff the value found is "true" ignoring case; an absent key reads as false |
| Config.GetBooleanPropertyOr | src/main/java/com/automation/framework/config/ConfigManager.java:63-66 | the default only for an absent key; a present value reads as true iff it is "true" ignoring case, so a present non-"true" value gives false even with a true default |
| Config.IntPropertyReads | src/main/java/com/automation/framework/config/ConfigManager.java:68-78 | a setting holding the decimal text of an int reads as that int, with or without a default |
| Config.GetIntProperty | src/main/java/com/automation/framework/config/ConfigManager.java:68-70 | succeeds iff the key is present and its value is the decimal text of an int, and returns the value that text denotes; an absent key or any other text ("abc", "1.5", "-", "2147483648") throws |
| Config.GetIntPropertyOr | src/main/java/com/automation/framework/config/ConfigManager.java:72-78 | the value a decimal int text denotes; the default for an absent key and for any value that does not parse; an int whenever the default is |
| Config.BrowserAndTimeoutDefaults | src/main/java/com/automation/framework/config/ConfigManager.java:81-124 | the typed getters, with nothing set: browser "chrome", not headless, not maximised, not incognito, window 1920x1080, retry 1, thread count 1, implicit 10 s, explicit 30 s, page load 60 s |
| Config.DriverAndProxyDefaults | src/main/java/com/automation/framework/config/ConfigManager.java:162-222 | the typed getters, with nothing set: auto-download on, offline off, cache "./drivers/.cache", local "./drivers", download timeout 30, proxy off with port 8080 and bypass list "localhost\|127.0.0.1", WebDriverManager timeout 30, cache on, offline and force-cache off |
| Config.EnvironmentAndReportDefaults | src/main/java/com/automation/framework/config/ConfigManager.java:127-159 | the typed getters, with nothing set: the saucedemo base URL, environment "dev", every report and screenshot switch off, test data under "src/test/resources/testdata/" in "json" |
| Config.ConfigPart | src/main/java/com/automation/framework/config/ConfigManager.java:81-222 | the configuration keys of a system-property table and their values, and nothing else |
| Config.ViewReadsConfigKeys | src/main/java/com/automation/framework/config/ConfigManager.java:46-52 | for every key a getter reads, the value is the same whether the getter sees the whole system-property table or only its configuration keys |
| Config.WriteOutsideConfig | src/main/java/com/automation/framework/utils/DriverSetupUtils.java:70-108 | setting or clearing a property that is not a configuration key changes no setting |
| Config.ConfigManager.constructor | src/main/java/com/automation/framework/config/ConfigManager.java:18-20 | the manager holds the properties that were loaded |
| Config.ConfigSingleton.constructor | src/main/java/com/automation/framework/config/ConfigManager.java:22-31 | no instance before the first call |
| Config.ConfigSingleton.GetInstance | src/main/java/com/automation/framework/config/ConfigManager.java:22-44 | once an instance exists, every call returns that same object; the first call that reads the file creates and keeps a fresh manager with the file's properties; an unreadable file gives "Configuration file not found: src/main/resources/config/application.properties" and keeps nothing |
| DriverSetupUtils.GetDriverPath | src/main/java/com/automation/framework/utils/DriverSetupUtils.java:219-231 | the local file if it exists, else the cached file if it exists, else null; only existence is checked |
| DriverSetupUtils.IsDriverAvailableLocally | src/main/java/com/automation/framework/utils/DriverSetupUtils.java:195-214 | true iff the local or the cached file exists and is executable |
| DriverSetupUtils.AvailableLocallyHasDriverPath | src/main/java/com/automation/framework/utils/DriverSetupUtils.java:195-231 | a driver available locally always has a driver path |
| DriverSetupUtils.DriverPathIgnoresExecutability | src/main/java/com/automation/framework/utils/DriverSetupUtils.java:219-231 | the converse fails: a non-executable local file is returned even when an executable cached copy exists |
| DriverSetupUtils.IsInternetAvailable | src/main/java/com/automation/framework/utils/DriverSetupUtils.java:176-190 | connected iff the HEAD request answered 200; any exception means not connected |
| DriverSetupUtils.WdmKeysOutsideConfig | src/main/java/com/automation/framework/utils/DriverSetupUtils.java:70-108 | no property written here is one the configuration reads |
| DriverSetupUtils.WdmWritesFrame | src/main/java/com/automation/framework/utils/DriverSetupUtils.java:70-108 | every property outside the WebDriverManager and proxy keys keeps its presence and value |
| DriverSetupUtils.WdmWritesBase | src/main/java/com/automation/framework/utils/DriverSetupUtils.java:70-74 | cache path, timeout and `wdm.avoidBrowserDetection=true` are always written, with the configured values |
| DriverSetupUtils.WdmWritesOffline | src/main/java/com/automation/framework/utils/DriverSetupUtils.java:76-83 | offline mode writes `avoidDownload=true` and `avoidFallback=false`, and force-cache writes `forceCache=true`; when a setting is off, its keys keep their presence and their value |
| DriverSetupUtils.WdmWritesProxy | src/main/java/com/automation/framework/utils/DriverSetupUtils.java:86-105 | an enabled proxy with a non-empty host writes `wdm.proxy=host:port` and the HTTP and HTTPS host and port; the bypass lists only when non-empty, an empty list keeping both bypass keys as they were; otherwise each of the seven proxy keys keeps its presence and value |
| DriverSetupUtils.SetOutsideConfig | src/main/java/com/automation/framework/utils/DriverSetupUtils.java:70-108 | one WebDriverManager key is set and every setting still reads as before |
| DriverSetupUtils.ConfigureWebDriverManagerGlobally | src/main/java/com/automation/framework/utils/DriverSetupUtils.java:70-108 | the new property table is exactly the writes above applied to the old one, with settings read before any write; no setting changes |
| DriverSetupUtils.EnableOfflineMode | src/main/java/com/automation/framework/utils/DriverSetupUtils.java:236-241 | the three offline keys are set to their values, nothing else changes, and no setting changes |
| DriverSetupUtils.DisableOfflineMode | src/main/java/com/automation/framework/utils/DriverSetupUtils.java:246-251 | exactly the three offline keys are removed |
| DriverSetupUtils.OfflineModeSettings | src/main/java/com/automation/framework/utils/DriverSetupUtils.java:236-241 | enabling adds exactly the three keys with "true", "false", "true" and keeps every other value |
| DriverSetupUtils.OfflineModeRoundTrip | src/main/java/com/automation/framework/utils/DriverSetupUtils.java:236-251 | enable then disable equals disable alone: the three keys are absent, every other key is as before |
| DriverSetupUtils.DownloadDriver | src/main/java/com/automation/framework/utils/DriverSetupUtils.java:113-171 | a per-browser download is skipped iff the probe fails, completes iff online and WebDriverManager completes, and otherwise fails softly with WebDriverManager's message |
| DriverSetupUtils.DriverPropertiesOutside | src/main/java/com/automation/framework/utils/DriverSetupUtils.java:113-171 | the three `webdriver.<browser>.driver` properties a completed download writes are neither WebDriverManager keys nor configuration keys |
| DriverSetupUtils.DownloadBrowserDriver | src/main/java/com/automation/framework/utils/DriverSetupUtils.java:113-171 | one `download*Driver` call: its report is `DownloadDriver`, a completed `setup()` points the family's driver property at the exported driver, and nothing else changes, so no setting changes |
| DriverSetupUtils.AfterDownloadsWrites | src/main/java/com/automation/framework/utils/DriverSetupUtils.java:30-42 | the three downloads change no property but the three driver properties; each holds its driver iff its download completed, and keeps its presence and value otherwise |
| DriverSetupUtils.SetupAllDriversOffline | src/main/java/com/automation/framework/utils/DriverSetupUtils.java:30-42 | configures WebDriverManager, then downloads Chrome, Firefox and Edge in that order, each on its own; the new table is the WebDriverManager writes followed by the three downloads' driver-property writes (`AfterDownloads`) |
| DriverSetupUtils.RunCli | src/main/java/com/automation/framework/utils/DriverSetupUtils.java:256-266 | the setup runs iff the first argument is exactly "setup"; the setup leaves the table `AfterDownloads` of the WebDriverManager writes; otherwise the usage text is printed and no property changes |
| DriverOptions.BrowserFor | src/main/java/com/automation/framework/driver/DriverManager.java:59-69 | "firefox" and "edge" select their own family, and every other name selects Chrome |
| DriverOptions.BrowserChoiceIgnoresCase | src/main/java/com/automation/framework/driver/DriverManager.java:34 | names equal ignoring case select the same family |
| DriverOptions.MixedCaseNames | src/main/java/com/automation/framework/driver/DriverManager.java:34 | "FireFox" selects Firefox, "EDGE" selects Edge, and "Safari" falls back to Chrome |
| DriverOptions.CommandLine | src/main/java/com/automation/framework/driver/DriverManager.java:125-157 | each argument is passed in order with its own spelling |
| DriverOptions.FixedArgumentsUnswitched | src/main/java/com/automation/framework/driver/DriverManager.java:125-157 | none of the 14 fixed Chrome flags or the 10 fixed Edge flags is a flag the configuration switches |
| DriverOptions.FlagArgument | src/main/java/com/automation/framework/driver/DriverManager.java:128-134 | a flag contributes its argument iff it is set |
| DriverOptions.ChromeOptions | src/main/java/com/automation/framework/driver/DriverManager.java:125-157 | "--headless=new" iff headless and "--incognito" iff incognito, never the Edge or classic flags; in `addArguments` order: the headless flag, then the incognito flag, then the fixed flags in their order, then the user agent, and no other argument; automation indicators removed |
| DriverOptions.FirefoxOptions | src/main/java/com/automation/framework/driver/DriverManager.java:213-227 | "--headless" iff headless, then exactly the four fixed arguments: no sandbox, no /dev/shm, a 1920x1080 window; no incognito flag, no experimental options |
| DriverOptions.EdgeOptions | src/main/java/com/automation/framework/driver/DriverManager.java:283-310 | "--headless=new" iff headless and "--inprivate" iff incognito, never "--incognito" or the user agent; in `addArguments` order: the headless flag, then the InPrivate flag, then the ten fixed flags in their order, and no other argument; automation indicators removed |
| DriverOptions.OptionsFor | src/main/java/com/automation/framework/driver/DriverManager.java:59-69 | the options are those of the chosen family |
| DriverOptions.FirefoxIgnoresIncognito | src/main/java/com/automation/framework/driver/DriverManager.java:213-227 | Firefox's options do not depend on incognito |
| DriverOptions.ChromeHeadlessPrepends | src/main/java/com/automation/framework/driver/DriverManager.java:125-157 | the Chrome arguments with headless on are "--headless=new" followed by the arguments with it off (`ChromeArguments`, the list `createChromeOptions` adds) |
| DriverOptions.EdgeHeadlessPrepends | src/main/java/com/automation/framework/driver/DriverManager.java:283-310 | the Edge arguments with headless on are "--headless=new" followed by the arguments with it off (`EdgeArguments`, the list `createEdgeOptions` adds) |
| DriverOptions.HeadlessOnlyPrependsFlag | src/main/java/com/automation/framework/driver/DriverManager.java:125-310 | for every family, headless only puts the headless flag in front; all other arguments and options are the same |
| DriverOptions.ChromeCommandLine | src/main/java/com/automation/framework/driver/DriverManager.java:125-157 | the Chrome command line starts with "--headless=new" when headless (else with "--incognito" when incognito) and ends with the user agent |
| DriverResolution.KindOf | src/main/java/com/automation/framework/driver/DriverManager.java:83-278 | the `webdriver.*.driver` property each setup writes is neither a configuration key nor a WebDriverManager key |
| DriverResolution.FirstRunnable | src/main/java/com/automation/framework/driver/DriverManager.java:403-427 | the position of the first directory holding an existing, executable file, with none before it; none when no directory has one |
| DriverResolution.PathLookup | src/main/java/com/automation/framework/driver/DriverManager.java:396-430 | the search ends in a PATH entry, an installation directory or nothing |
| DriverResolution.FoundPath | src/main/java/com/automation/framework/driver/DriverManager.java:396-430 | a path is returned iff the driver was found in a directory |
| DriverResolution.SetupPath | src/main/java/com/automation/framework/driver/DriverManager.java:83-120 | the driver the family's property is pointed at: the download's exported driver after a download, otherwise the file found on disk or by the search; there is one iff resolution did not fail |
| DriverResolution.FindDriverInPath | src/main/java/com/automation/framework/driver/DriverManager.java:396-430 | the two loops return exactly the path the ordered search specifies: null for an unset PATH, else the first PATH entry with a runnable file, else the first installation directory with one, else null |
| DriverResolution.LocalFileWins | src/main/java/com/automation/framework/driver/DriverManager.java:83-91 | `Resolve` uses an existing local file as it is, ahead of a cached one; an existing cached file is used when there is no local one; neither download nor PATH search happens |
| DriverResolution.DownloadOnlyWhenOnline | src/main/java/com/automation/framework/driver/DriverManager.java:93-101 | `Resolve` uses the download iff nothing is on disk, auto-download is on, the probe answered 200 and WebDriverManager completed, and then uses the driver WebDriverManager exported |
| DriverResolution.FailedDownloadFallsBackToPath | src/main/java/com/automation/framework/driver/DriverManager.java:103-119 | a failed download or a failed probe falls through to the PATH search without error |
| DriverResolution.NotFoundIff | src/main/java/com/automation/framework/driver/DriverManager.java:83-120 | `Resolve` fails iff nothing is on disk, no download succeeded and the PATH search found nothing |
| DriverResolution.PathLookupFindsFirst | src/main/java/com/automation/framework/driver/DriverManager.java:403-409 | the first PATH entry holding a runnable file is the one returned |
| DriverResolution.UnsetPathSkipsInstallDirs | src/main/java/com/automation/framework/driver/DriverManager.java:397-400 | with PATH unset, even an installed driver is not found; with PATH set to "", the same driver is found |
| DriverResolution.SetupDriver | src/main/java/com/automation/framework/driver/DriverManager.java:83-120 | fails with "<name> not found" iff resolution finds nothing, and then changes nothing; the new table is `AfterSetup`: the driver property points at the file found on disk, the driver WebDriverManager downloaded, or the file the search found, and nothing else changes |
| DriverManager.SettingsFor | src/main/java/com/automation/framework/driver/DriverManager.java:315-331 | implicit wait and page-load timeout are the configured ones; the window is maximised iff configured, otherwise sized to the configured width and height |
| DriverManager.WebDriver.constructor | src/main/java/com/automation/framework/driver/DriverManager.java:74-78 | a new session has the given options, is unconfigured and was never quit |
| DriverManager.PrepareWebDriverManager | src/main/java/com/automation/framework/driver/DriverManager.java:38-44 | the WebDriverManager writes, then the offline writes when driver offline mode is set; no setting changes |
| DriverManager.CreateDriver | src/main/java/com/automation/framework/driver/DriverManager.java:59-69 | "<name> not found" when resolution finds nothing; otherwise the constructor's error, or a fresh, unconfigured driver with the family's options for the configured headless and incognito settings; the property table afterwards is exactly what `setup*Driver` leaves (`AfterSetup`) |
| DriverManager.ConfigureDriver | src/main/java/com/automation/framework/driver/DriverManager.java:315-331 | on success the driver carries the configured settings; on failure the browser's message is reported and the settings are as before |
| DriverManager.DriverRegistry.constructor | src/main/java/com/automation/framework/driver/DriverManager.java:23 | no worker has a driver |
| DriverManager.DriverRegistry.GetDriver | src/main/java/com/automation/framework/driver/DriverManager.java:336-342 | succeeds iff the worker has a driver, and returns it; otherwise the error "Driver not initialized for current thread" |
| DriverManager.DriverRegistry.IsDriverInitialized | src/main/java/com/automation/framework/driver/DriverManager.java:364-366 | true exactly when `getDriver` would return a driver rather than throw |
| DriverManager.DriverRegistry.InitializeDriver | src/main/java/com/automation/framework/driver/DriverManager.java:33-54 | for the lower-cased configured browser: "not found" or a failed launch is "Driver initialization failed: <message>" and the registry is unchanged. A launch registers a fresh driver for this worker only, replacing any earlier one without quitting it. A configuration failure leaves it registered, unconfigured, and the prefixed error is returned. Whenever the driver was found and launched, the worker's driver is a fresh one. The property table afterwards is `PropsAfterInit`: the WebDriverManager writes, the offline writes when `driver.offline.mode` is set, then the driver property; no setting changes |
| DriverManager.DriverRegistry.LaunchAndRegister | src/main/java/com/automation/framework/driver/DriverManager.java:46-53 | the same outcome for a given browser name once WebDriverManager is prepared: a fresh driver whenever it was found and launched, and the property table `setup*Driver` leaves |
| DriverManager.PropsAfterInitWrites | src/main/java/com/automation/framework/driver/DriverManager.java:33-54 | `initializeDriver` changes no property but the WebDriverManager keys and the family's driver property; that property points at the driver set up (`SetupPath`: found on disk, downloaded, or found by the search), and is left alone when none was; with offline mode set, downloads are avoided and the cache forced |
| DriverManager.DriverRegistry.Register | src/main/java/com/automation/framework/driver/DriverManager.java:47-48 | the driver is registered before it is configured, and stays registered whatever configuring does; the earlier driver is not quit |
| DriverManager.DriverRegistry.QuitDriver | src/main/java/com/automation/framework/driver/DriverManager.java:347-359 | the worker's entry is removed (even when quit throws) after one quit call; nothing happens for a worker without a driver |
| DriverManager.QuitIdempotent | src/main/java/com/automation/framework/driver/DriverManager.java:347-359 | quitting twice leaves the registry as quitting once does |
| Retry.AnswersGrantRemaining | src/main/java/com/automation/framework/listeners/RetryAnalyzer.java:18-29 | n calls, each one `Decide` step, give n answers; the first `max - count` are true and the rest false |
| Retry.CountAfterGranted | src/main/java/com/automation/framework/listeners/RetryAnalyzer.java:18-29 | after n calls the counter has grown by exactly the retries granted |
| Retry.CountStaysInRange | src/main/java/com/automation/framework/listeners/RetryAnalyzer.java:14-29 | the counter never decreases and, starting at or below the maximum, never passes it |
| Retry.FreshAnalyzerAnswers | src/main/java/com/automation/framework/listeners/RetryAnalyzer.java:14-29 | with maximum m >= 0, a fresh analyzer answers min(n, m) times true, then only false, and counts min(n, m) |
| Retry.TwoRetriesThenStop | src/main/java/com/automation/framework/listeners/RetryAnalyzer.java:18-29 | with a maximum of 2, three calls answer true, true, false |
| Retry.NonPositiveMaxNeverRetries | src/main/java/com/automation/framework/listeners/RetryAnalyzer.java:21 | a maximum <= 0 never grants a retry and the counter stays 0 |
| Retry.RetryCountNeverWraps | src/main/java/com/automation/framework/listeners/RetryAnalyzer.java:22 | the increment happens only below a maximum that is an int, so it cannot overflow |
| Retry.RetryAnalyzer.constructor | src/main/java/com/automation/framework/listeners/RetryAnalyzer.java:14-15 | the counter starts at 0 |
| Retry.RetryAnalyzer.Retry | src/main/java/com/automation/framework/listeners/RetryAnalyzer.java:18-29 | with the maximum read at call time: a retry is granted iff the counter is below it, the counter grows by one exactly then, and the result is one step of the sequence the lemmas above describe |
| Reporting.ScreenshotsBesideReport | src/main/java/com/automation/framework/reporting/ExtentReportsManager.java:45-82 | the report file (`ReportPath`) and the screenshot directory (`ScreenshotDir`) both sit directly in `user.dir/test-output/extent-reports` |
| Reporting.FileNameOf | src/main/java/com/automation/framework/reporting/ExtentReportsManager.java:212-233 | the kept part is a suffix without the separator: after the last separator if there is one, else after the last '/', else the whole path |
| Reporting.ConvertToRelativePath | src/main/java/com/automation/framework/reporting/ExtentReportsManager.java:212-233 | the converted path is "./screenshots/" followed by the text after the input's last `File.separator`, else after its last '/', else the whole input |
| Reporting.ConvertIsStable | src/main/java/com/automation/framework/reporting/ExtentReportsManager.java:212-233 | converting twice is converting once, as long as the kept name holds no '/' |
| Reporting.ConvertKeepsFileName | src/main/java/com/automation/framework/reporting/ExtentReportsManager.java:212-233 | "./screenshots/<name>" converts to itself when the name holds no separator and no '/' |
| Reporting.NoBackslashAfterPrefix | src/main/java/com/automation/framework/reporting/ExtentReportsManager.java:212-233 | a converted path holds a '\' only inside the file name |
| Reporting.LastSlashBeforeName | src/main/java/com/automation/framework/reporting/ExtentReportsManager.java:219-221 | in `dir/name` with no '/' in the name, the text after the last '/' is the name |
| Reporting.ConvertNotStableOnWindows | src/main/java/com/automation/framework/reporting/ExtentReportsManager.java:212-233 | with '\' as separator, a name holding '/' loses more of itself on a second conversion |
| Reporting.ReportsManager.constructor | src/main/java/com/automation/framework/reporting/ExtentReportsManager.java:24-27 | no report, no current tests, no paths |
| Reporting.ReportsManager.GetInstance | src/main/java/com/automation/framework/reporting/ExtentReportsManager.java:35-82 | the first call creates the report at the timestamped path and records both paths; later calls return the same report and change nothing |
| Reporting.ReportsManager.GetTest | src/main/java/com/automation/framework/reporting/ExtentReportsManager.java:157-159 | the worker's current test iff it has one, else null |
| Reporting.ReportsManager.StartTest | src/main/java/com/automation/framework/reporting/ExtentReportsManager.java:146-151 | a new test with the name and description is started on the (possibly new) report and becomes this worker's current test; other workers' entries are untouched; a call that creates the report records its two paths, as `getInstance` does, and later calls keep them |
| Reporting.ReportsManager.EndTest | src/main/java/com/automation/framework/reporting/ExtentReportsManager.java:164-171 | the worker's test, as it stands, is ended on the report and removed; without one nothing changes, so a second call is a no-op |
| Reporting.ReportsManager.LogStep | src/main/java/com/automation/framework/reporting/ExtentReportsManager.java:178-184 | one line is appended to the worker's current test only; nothing happens without one |
| Reporting.ReportsManager.LogStepWithScreenshot | src/main/java/com/automation/framework/reporting/ExtentReportsManager.java:192-206 | one line with the converted image path is appended to the worker's test; if attaching throws, a line noting the failure is appended instead; nothing without a current test |
| Reporting.ReportsManager.AssignCategory | src/main/java/com/automation/framework/reporting/ExtentReportsManager.java:239-245 | the category is added to the worker's current test only; nothing without one |
| Reporting.ReportsManager.AssignAuthor | src/main/java/com/automation/framework/reporting/ExtentReportsManager.java:251-257 | the author is added to the worker's current test only; nothing without one |
| Reporting.ReportsManager.Flush | src/main/java/com/automation/framework/reporting/ExtentReportsManager.java:262-269 | an existing report is flushed and closed; without one nothing happens |
| Reporting.Categorized | src/main/java/com/automation/framework/reporting/ExtentReportsManager.java:239-245 | only the worker's test gains the categories; the same workers have tests |
| Reporting.Authored | src/main/java/com/automation/framework/reporting/ExtentReportsManager.java:251-257 | only the worker's test gains the author; the same workers have tests |
| Reporting.CategorizedTwice | src/main/java/com/automation/framework/reporting/ExtentReportsManager.java:239-245 | categories assigned in two calls are kept in call order |
| Reporting.Update | src/main/java/com/automation/framework/reporting/ExtentReportsManager.java:178-206 | only the worker's test gains the lines; the same workers have tests |
| Reporting.UpdateWithNoLines | src/main/java/com/automation/framework/reporting/ExtentReportsManager.java:178-184 | writing no lines changes nothing |
| Reporting.UpdateTwice | src/main/java/com/automation/framework/reporting/ExtentReportsManager.java:178-184 | lines written in two calls are kept in call order |
| Reporting.UpdateAt | src/main/java/com/automation/framework/reporting/ExtentReportsManager.java:146-184 | lines logged right after `startTest` land on the test just started |
| Reporting.PutThenRemove | src/main/java/com/automation/framework/reporting/ExtentReportsManager.java:146-171 | starting and then ending a test leaves the table without the worker, as before the start |
| Reporting.UpdateThenRemove | src/main/java/com/automation/framework/reporting/ExtentReportsManager.java:164-184 | after `endTest` the worker has no entry, whatever was logged |
| Reporting.ScreenshotEntry | src/main/java/com/automation/framework/reporting/ExtentReportsManager.java:192-206 | the line keeps the status; with an attached image it keeps the text and carries the converted path; otherwise the text is extended with the failure and has no image |
| Listeners.StartDescription | src/main/java/com/automation/framework/listeners/TestListener.java:49-50 | the method's description when non-null and non-empty, else "Test method: " + name |
| Listeners.SkipDescription | src/main/java/com/automation/framework/listeners/TestListener.java:132-133 | "Test skipped" only when the description is null; an empty description is kept |
| Listeners.ThrowableMessage | src/main/java/com/automation/framework/listeners/ExtentReportsListener.java:86-122 | the throwable's message ("null" when it has none), or the fallback without a throwable: "Test failed with unknown error" on a failure, "Test skipped" on a skip |
| Listeners.FailLines | src/main/java/com/automation/framework/listeners/TestListener.java:97-108 | the failure line first, the stack trace only with a throwable, the duration last; all but the duration are FAIL lines |
| Listeners.RelativeScreenshotPath | src/main/java/com/automation/framework/listeners/TestListener.java:176-186 | "./screenshots/" and the separator-free suffix after the last `File.separator`, or the whole path when there is none |
| Listeners.SecondConversionKeepsPath | src/main/java/com/automation/framework/listeners/TestListener.java:156-161 | the manager's second conversion keeps the listener's path whenever the file name holds no '/' |
| Listeners.UnixPathReachesReport | src/main/java/com/automation/framework/listeners/ExtentReportsListener.java:163-168 | with '/' as separator the report always receives the listener's path unchanged |
| Listeners.ScreenshotLines | src/main/java/com/automation/framework/listeners/ExtentReportsListener.java:156-175 | nothing iff no image was saved; one image line for a saved image; one WARNING line "Failed to capture screenshot: <message>" without an image when capture threw |
| Listeners.AttachScreenshot | src/main/java/com/automation/framework/listeners/ExtentReportsListener.java:156-175 | the worker's test gains exactly the screenshot lines; the report is untouched |
| Listeners.SimpleClassName | src/main/java/com/automation/framework/listeners/TestListener.java:214 | the suffix of the class name after its last '.', the whole name without one |
| Listeners.MetadataCategories | src/main/java/com/automation/framework/listeners/TestListener.java:211-223 | the simple class name first, then every group in array order |
| Listeners.Tagged | src/main/java/com/automation/framework/listeners/TestListener.java:206-227 | only the worker's test gains the categories and the author "Test Team" |
| Listeners.AddTestMetadata | src/main/java/com/automation/framework/listeners/ExtentReportsListener.java:134-151 | the worker's test gains the categories in order and then the author; the report is untouched |
| Listeners.TaggedInSteps | src/main/java/com/automation/framework/listeners/ExtentReportsListener.java:138-150 | the class category, then the groups, then the author, taken call by call, add up to the metadata |
| Listeners.TaggedAt | src/main/java/com/automation/framework/listeners/TestListener.java:51-54 | metadata added right after `startTest` lands on the test just started |
| Listeners.AssignGroups | src/main/java/com/automation/framework/listeners/TestListener.java:218-223 | the loop adds every group, in array order, to the worker's test |
| Listeners.StartIfAbsent | src/main/java/com/automation/framework/listeners/TestListener.java:131-135 | a worker with a current test is left alone; otherwise a test under the skip description is started on the report and tagged with the metadata; the report paths are recorded if the report is created |
| Listeners.LogStart | src/main/java/com/automation/framework/listeners/TestListener.java:57-58 | the worker's test gains "Test started: <name>" and "Test class: <class>" in that order |
| Listeners.LogPass | src/main/java/com/automation/framework/listeners/TestListener.java:70-72 | the worker's test gains the pass line and the duration line in that order |
| Listeners.LogFailure | src/main/java/com/automation/framework/listeners/TestListener.java:98-107 | the worker's test gains exactly the failure lines, in order |
| Listeners.ShotLogged | src/main/java/com/automation/framework/listeners/TestListener.java:70-77 | a handler's lines followed by gated screenshot lines are its lines plus the screenshot lines when the gate is open |
| TestListeners.TestListener.constructor | src/main/java/com/automation/framework/listeners/TestListener.java:22 | the listener keeps the configuration it was created with |
| TestListeners.TestListener.OnFinish | src/main/java/com/automation/framework/listeners/TestListener.java:31-37 | with reports enabled the report is flushed; otherwise nothing changes; the report paths are unchanged |
| TestListeners.TestListener.AddTestMetadataIfEnabled | src/main/java/com/automation/framework/listeners/TestListener.java:206-227 | nothing happens with reports disabled; otherwise the worker's test is tagged |
| TestListeners.TestListener.CaptureScreenshot | src/main/java/com/automation/framework/listeners/TestListener.java:146-170 | the screenshot lines reach the worker's test only with reports enabled; otherwise nothing changes |
| TestListeners.TestListener.OnTestStart | src/main/java/com/automation/framework/listeners/TestListener.java:40-60 | with reports disabled nothing changes. Otherwise the worker's current test becomes a new test under the start description, tagged and carrying the two start lines; the report records the start; a start that creates the report records its two paths |
| TestListeners.TestListener.OnTestSuccess | src/main/java/com/automation/framework/listeners/TestListener.java:63-83 | with reports disabled nothing changes. Otherwise the worker's entry is gone afterwards; its test is ended on the report carrying the pass lines and, when `on.pass` is set, the screenshot lines; without a test the report is unchanged; the report paths are unchanged |
| TestListeners.TestListener.OnTestFailure | src/main/java/com/automation/framework/listeners/TestListener.java:86-118 | the same for a failure: the failure lines and, when `on.failure` is set, the screenshot lines; the entry is gone afterwards; the report paths are unchanged |
| TestListeners.TestListener.OnTestSkipped | src/main/java/com/automation/framework/listeners/TestListener.java:121-141 | with reports disabled nothing changes. Otherwise the worker's entry is gone afterwards and the report ends either the current test with the skip line or, without one, a new test under the skip description, tagged, with the skip line; a start that creates the report records its two paths |
| ReportsListener.ShouldCaptureScreenshotOnPass | src/main/java/com/automation/framework/listeners/ExtentReportsListener.java:208-211 | true iff the system property is set to "true" ignoring case; the configuration file is not consulted |
| ReportsListener.ListenersAgreeOnSystemProperty | src/main/java/com/automation/framework/listeners/ExtentReportsListener.java:208-211 | when the system property is set, both listeners decide the same way |
| ReportsListener.ListenersDisagreeOnFileSetting | src/main/java/com/automation/framework/listeners/ExtentReportsListener.java:208-211 | a "true" held only in the configuration file turns pass screenshots on for TestListener but not here |
| ReportsListener.ExtentReportsListener.OnFinish | src/main/java/com/automation/framework/listeners/ExtentReportsListener.java:27-31 | the report is flushed if it exists, whatever the configuration says; the report paths are unchanged |
| ReportsListener.ExtentReportsListener.OnTestStart | src/main/java/com/automation/framework/listeners/ExtentReportsListener.java:34-54 | always: the worker's current test becomes a new test under the start description, tagged and carrying the two start lines; the report records the start; a start that creates the report records its two paths |
| ReportsListener.ExtentReportsListener.OnTestSuccess | src/main/java/com/automation/framework/listeners/ExtentReportsListener.java:57-77 | always: the entry is gone afterwards; the test is ended with the pass lines and, when the system property asks, the screenshot lines; the report paths are unchanged |
| ReportsListener.ExtentReportsListener.OnTestFailure | src/main/java/com/automation/framework/listeners/ExtentReportsListener.java:80-106 | always: the entry is gone afterwards; the test is ended with the failure lines and the screenshot lines, with no gate; the report paths are unchanged |
| ReportsListener.ExtentReportsListener.OnTestSkipped | src/main/java/com/automation/framework/listeners/ExtentReportsListener.java:109-129 | always: as TestListener's skip with reports enabled; a start that creates the report records its two paths |
| BaseTests.WithBrowserParameter | src/main/java/com/automation/framework/base/BaseTest.java:31-33 | the "browser" system property is set to the parameter iff it is non-null and non-empty; otherwise the properties are unchanged |
| BaseTests.ParameterWinsOverFile | src/main/java/com/automation/framework/base/BaseTest.java:31-33 | a non-empty parameter becomes the configured browser, whatever the file says |
| BaseTests.NoParameterKeepsSettings | src/main/java/com/automation/framework/base/BaseTest.java:31 | a null or empty parameter changes no setting |
| BaseTests.OverrideOutlivesTest | src/main/java/com/automation/framework/base/BaseTest.java:31-33 | the override is never undone: a later set-up without a parameter keeps the earlier browser |
| BaseTests.TestDataFile | src/main/java/com/automation/framework/base/BaseTest.java:78-80 | the configured prefix followed directly by the file name, with nothing in between |
| BaseTests.DefaultTestDataFile | src/main/java/com/automation/framework/base/BaseTest.java:78-80 | without a configured prefix, files are under "src/test/resources/testdata/" |
| BaseTests.PrefixWithoutSeparatorJoinsName | src/main/java/com/automation/framework/base/BaseTest.java:78-80 | a prefix "data" and "users.json" give "datausers.json" |
| BaseTests.BaseTest.constructor | src/main/java/com/automation/framework/base/BaseTest.java:20 | the test keeps the configuration it was created with |
| BaseTests.BaseTest.SetUp | src/main/java/com/automation/framework/base/BaseTest.java:24-42 | the driver is initialized (as InitializeDriver states) under the settings after the override; any initialization failure becomes "Test setup failed", success is success; the override stays in place; a driver found and launched is a fresh one, and the property table afterwards is `PropsAfterInit` of the table after the override |
| BaseTests.BaseTest.TearDown | src/main/java/com/automation/framework/base/BaseTest.java:45-57 | never fails: the worker's entry is removed after one quit call, and a second call finds nothing |
| BaseTests.BaseTest.GetTestDataPath | src/main/java/com/automation/framework/base/BaseTest.java:78-80 | the data file path under the configuration at call time |

## Left out

- Threads: the `synchronized` methods, the double-checked locking in `getInstance` and the visibility of `static` fields are not modelled. Every `ThreadLocal` and the `testMap` are maps keyed by an explicit worker id, and each call runs alone.
- `ConfigManager.loadProperties`: reading and parsing `application.properties` is an input (the loaded map, or none when the file cannot be read).
- `Integer.parseInt` and `toLowerCase` accept only ASCII digits and ASCII case. Java also accepts other Unicode digits and maps non-ASCII letters.
- DriverOptions.BrowserChoiceIgnoresCase: `toLowerCase()` is modelled without the default locale, so the lemma holds only in a locale whose case mapping is ASCII's. Under a Turkish locale Java lower-cases "FIREFOX" to "fırefox", which selects Chrome.
- `new File(dir, name)` is modelled as `dir + "/" + name`. Java's normalisation of separators and trailing slashes, and `getAbsolutePath`, are not modelled.
- The file system, the HEAD probe (URL, timeouts), WebDriverManager's download and cache handling, and the browser drivers' constructors are oracle parameters. `createDriversDirectory` and `createDirectories` in `createInstance` create directories on disk and are not modelled.
- `DriverManager.downloadDriversForOfflineUse` and `DriverManager.configureWebDriverManager` are not modelled. They only create directories, download and write fixed properties, and nothing else calls them from the core.
- DriverManager.ConfigureDriver: the timeout and window calls are one all-or-nothing outcome. A failure after the implicit wait was set is not distinguished.
- The ExtentReports library: `ExtentTest` and `ExtentReports` are values, not shared objects. `setDefaultConfiguration`, `addSystemInformation`, `loadConfig` and the HTML output are not modelled. `addScreenCapture`'s markup is kept as the image path on the line.
- Reporting.ReportsManager.EndTest: it does not call `getInstance` again. `Valid` (a current test implies a report) guarantees that the report exists, so that call would change nothing.
- `convertToRelativePath`'s catch branch is not modelled: it is reachable only for a null path, which no caller passes. The `getReportPath` and `getScreenshotPath` getters only return the fields the model records.
- `ScreenshotUtils` is an oracle: the image saved at a path, `null`, or an exception. The status label it puts in the file name and the file copy are not modelled.
- `getStackTrace`'s formatting of JVM stack frames is given text.
- Listeners.DurationLine: `getEndMillis() - getStartMillis()` is a Java `long` and could wrap around. The model subtracts unbounded integers.
- The suite-level `onStart` and the context-level `onStart`/`onFinish` only log, as does every log4j call. `BaseTest.logStep` only logs.
- `BaseTest.navigateToBaseUrl` is not modelled: it drives the live browser.
- `WaitUtils`, `BasePage`, `LoginPage`, `TestDataUtils` and the test classes are not modelled. They are UI actions and JSON reading delegated to Selenium and Jackson.
- TestListeners.TestListener.OnTestSkipped: `addTestMetadata`'s own check of `reports.extent.enabled` is not repeated. It runs inside a branch taken only when that setting is on.
- How WebDriverManager's `setup()` picks, downloads and caches a driver is not modelled: the download oracle gives the path it exported. The model writes that path to `webdriver.<browser>.driver`, as `setup()` does, and assumes no other property write from inside WebDriverManager.
- ExtentReportsListener reads `reports.screenshots.on.pass` from the system properties only, whereas TestListener also reads the configuration file. The model keeps both behaviours, and ReportsListener.ListenersDisagreeOnFileSetting shows where they differ.
- The code is followed where it differs from what its comments and names suggest:
  - `getDriverPath` ignores executability (DriverSetupUtils.DriverPathIgnoresExecutability).
  - an unset `PATH` skips the installation directories (DriverResolution.UnsetPathSkipsInstallDirs).
  - the browser override is never cleared (BaseTests.OverrideOutlivesTest).
