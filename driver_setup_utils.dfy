/** DriverSetupUtils: where a driver executable is looked for on disk, the
    connectivity probe, the WebDriverManager ("wdm.*") and proxy system
    properties written before any driver is created, offline mode, and the
    command-line entry point that pre-downloads every driver. */
module DriverSetupUtils {
  import opened Wrappers
  import opened JavaLang
  import opened Config

  // ---------------------------------------------------------------------------
  // The file system, as the framework observes it

  /** The paths that exist and the paths the process may execute. */
  datatype FileSystem = FileSystem(existing: set<string>, executable: set<string>)

  /** File.exists() */
  predicate Exists(fs: FileSystem, path: string) {
    path in fs.existing
  }

  /** File.exists() && File.canExecute() */
  predicate Runnable(fs: FileSystem, path: string) {
    path in fs.existing && path in fs.executable
  }

  /** The path of a file `name` inside directory `dir`. */
  function FileIn(dir: string, name: string): string {
    dir + "/" + name
  }

  function LocalDriverFile(s: Sources, name: string): string {
    FileIn(DriverLocalPath(s), name)
  }

  function CachedDriverFile(s: Sources, name: string): string {
    FileIn(DriverCachePath(s), name)
  }

  /** getDriverPath(name): the file in the local driver directory if it exists,
      else the file in the cache directory if it exists, else null. Only
      existence is checked, never executability. */
  function GetDriverPath(fs: FileSystem, s: Sources, name: string): (r: Option<string>)
    ensures Exists(fs, LocalDriverFile(s, name)) ==> r == Some(LocalDriverFile(s, name))
    ensures !Exists(fs, LocalDriverFile(s, name)) && Exists(fs, CachedDriverFile(s, name)) ==>
      r == Some(CachedDriverFile(s, name))
    ensures r.None? <==> !Exists(fs, LocalDriverFile(s, name)) && !Exists(fs, CachedDriverFile(s, name))
  {
    var localPath := LocalDriverFile(s, name);
    if Exists(fs, localPath) then Some(localPath)
    else
      var cachePath := CachedDriverFile(s, name);
      if Exists(fs, cachePath) then Some(cachePath) else None
  }

  /** isDriverAvailableLocally(name): the same local-then-cache search, but a
      file only counts when it also is executable. */
  function IsDriverAvailableLocally(fs: FileSystem, s: Sources, name: string): (r: bool)
    ensures r <==> Runnable(fs, LocalDriverFile(s, name)) || Runnable(fs, CachedDriverFile(s, name))
  {
    if Runnable(fs, LocalDriverFile(s, name)) then true
    else Runnable(fs, CachedDriverFile(s, name))
  }

  /** A driver that is available locally always has a driver path. */
  lemma AvailableLocallyHasDriverPath(fs: FileSystem, s: Sources, name: string)
    requires IsDriverAvailableLocally(fs, s, name)
    ensures GetDriverPath(fs, s, name).Some?
  {
  }

  /** The converse fails: getDriverPath hands out a local file that is not
      executable even when an executable copy sits in the cache. */
  lemma DriverPathIgnoresExecutability(s: Sources, name: string)
    requires LocalDriverFile(s, name) != CachedDriverFile(s, name)
    ensures var fs := FileSystem({LocalDriverFile(s, name), CachedDriverFile(s, name)}, {CachedDriverFile(s, name)});
      GetDriverPath(fs, s, name) == Some(LocalDriverFile(s, name)) && IsDriverAvailableLocally(fs, s, name)
      && !Runnable(fs, GetDriverPath(fs, s, name).value)
  {
  }

  // ---------------------------------------------------------------------------
  // Connectivity probe

  /** The outcome of the HEAD request to ProbeUrl: a status code, or an
      exception (unreachable host, the 5-second connect or read timeout, ...). */
  datatype ProbeResult = Response(code: int) | ConnectionFailed

  const ProbeUrl: string := "https://www.saucedemo.com/v1/index.html"

  /** isInternetAvailable(): true iff the probe answered 200; any exception is false. */
  function IsInternetAvailable(probe: ProbeResult): (r: bool)
    ensures r <==> probe == Response(200)
  {
    match probe
    case Response(code) => code == 200
    case ConnectionFailed => false
  }

  // ---------------------------------------------------------------------------
  // WebDriverManager and proxy system properties

  /** Every system property the WebDriverManager configuration and the
      offline mode write. */
  const WdmKeys: set<string> := {
    "wdm.cachePath", "wdm.timeout", "wdm.avoidBrowserDetection",
    "wdm.avoidDownload", "wdm.avoidFallback", "wdm.forceCache", "wdm.proxy",
    "http.proxyHost", "http.proxyPort", "https.proxyHost", "https.proxyPort",
    "http.nonProxyHosts", "https.nonProxyHosts"
  }

  /** No property written here is one the configuration reads. */
  lemma WdmKeysOutsideConfig()
    ensures WdmKeys !! ConfigKeys
  {
  }

  /** The settings configureWebDriverManagerGlobally reads. */
  datatype WdmSettings = WdmSettings(
    cachePath: string, timeout: int, offline: bool, forceCache: bool,
    proxyEnabled: bool, proxyHost: string, proxyPort: int, nonProxyHosts: string)

  function WdmSettingsOf(s: Sources): WdmSettings {
    WdmSettings(DriverCachePath(s), WebDriverManagerTimeout(s),
      WebDriverManagerOfflineEnabled(s), WebDriverManagerForceCache(s),
      ProxyEnabled(s), ProxyHost(s), ProxyPort(s), NonProxyHosts(s))
  }

  // The writes below are stated as functions from the property table before
  // to the table after, in the order configureWebDriverManagerGlobally makes them.

  /** Cache path, timeout and browser detection, always written. */
  function BaseWdmWrites(c: WdmSettings, m: map<string, string>): map<string, string> {
    m["wdm.cachePath" := c.cachePath]
     ["wdm.timeout" := IntToString(c.timeout)]
     ["wdm.avoidBrowserDetection" := "true"]
  }

  /** The offline pair, written only when WebDriverManager offline mode is on. */
  function OfflineWdmWrites(c: WdmSettings, m: map<string, string>): map<string, string> {
    if c.offline then m["wdm.avoidDownload" := "true"]["wdm.avoidFallback" := "false"] else m
  }

  /** The force-cache flag, written only when configured. */
  function ForceCacheWdmWrites(c: WdmSettings, m: map<string, string>): map<string, string> {
    if c.forceCache then m["wdm.forceCache" := "true"] else m
  }

  /** The proxy is configured only when it is enabled and names a host. */
  predicate ProxyActive(c: WdmSettings) {
    c.proxyEnabled && c.proxyHost != ""
  }

  /** The proxy properties, then the bypass list when that list is non-empty. */
  function ProxyWdmWrites(c: WdmSettings, m: map<string, string>): map<string, string> {
    if !ProxyActive(c) then m
    else
      var port := IntToString(c.proxyPort);
      var proxied := m["wdm.proxy" := c.proxyHost + ":" + port]
                      ["http.proxyHost" := c.proxyHost]["http.proxyPort" := port]
                      ["https.proxyHost" := c.proxyHost]["https.proxyPort" := port];
      if c.nonProxyHosts == "" then proxied
      else proxied["http.nonProxyHosts" := c.nonProxyHosts]["https.nonProxyHosts" := c.nonProxyHosts]
  }

  /** The system property table after configureWebDriverManagerGlobally. */
  function WdmWrites(c: WdmSettings, m: map<string, string>): map<string, string> {
    ProxyWdmWrites(c, ForceCacheWdmWrites(c, OfflineWdmWrites(c, BaseWdmWrites(c, m))))
  }

  /** `k` holds in r exactly what it held in m: present in both with the
      same value, or absent from both. */
  predicate Kept(m: map<string, string>, r: map<string, string>, k: string) {
    (k in r <==> k in m) && (k in m ==> r[k] == m[k])
  }

  /** Only the WebDriverManager and proxy keys are touched. */
  lemma WdmWritesFrame(c: WdmSettings, m: map<string, string>, k: string)
    requires k !in WdmKeys
    ensures Kept(m, WdmWrites(c, m), k)
  {
  }

  /** Cache path, timeout and browser detection are always written, with the
      configured values. */
  lemma WdmWritesBase(c: WdmSettings, m: map<string, string>)
    ensures var r := WdmWrites(c, m);
      && "wdm.cachePath" in r && r["wdm.cachePath"] == c.cachePath
      && "wdm.timeout" in r && r["wdm.timeout"] == IntToString(c.timeout)
      && "wdm.avoidBrowserDetection" in r && r["wdm.avoidBrowserDetection"] == "true"
  {
  }

  /** In offline mode downloads and the fallback are turned off; otherwise
      those keys keep whatever they held. The same for force-cache. */
  lemma WdmWritesOffline(c: WdmSettings, m: map<string, string>)
    ensures var r := WdmWrites(c, m);
      && (c.offline ==> "wdm.avoidDownload" in r && r["wdm.avoidDownload"] == "true"
                        && "wdm.avoidFallback" in r && r["wdm.avoidFallback"] == "false")
      && (!c.offline ==> Kept(m, r, "wdm.avoidDownload") && Kept(m, r, "wdm.avoidFallback"))
      && (c.forceCache ==> "wdm.forceCache" in r && r["wdm.forceCache"] == "true")
      && (!c.forceCache ==> Kept(m, r, "wdm.forceCache"))
  {
  }

  /** The seven proxy keys. */
  const ProxyKeys: set<string> := {
    "wdm.proxy", "http.proxyHost", "http.proxyPort", "https.proxyHost", "https.proxyPort",
    "http.nonProxyHosts", "https.nonProxyHosts"
  }

  /** For an enabled proxy with a host, WebDriverManager and both protocols
      get host and port; the bypass list follows only when it is non-empty.
      Otherwise no proxy key changes, and an empty bypass list leaves both
      bypass keys as they were. */
  lemma WdmWritesProxy(c: WdmSettings, m: map<string, string>)
    ensures var r := WdmWrites(c, m);
      && (ProxyActive(c) ==>
            && "wdm.proxy" in r && r["wdm.proxy"] == c.proxyHost + ":" + IntToString(c.proxyPort)
            && "http.proxyHost" in r && r["http.proxyHost"] == c.proxyHost
            && "https.proxyHost" in r && r["https.proxyHost"] == c.proxyHost
            && "http.proxyPort" in r && r["http.proxyPort"] == IntToString(c.proxyPort)
            && "https.proxyPort" in r && r["https.proxyPort"] == IntToString(c.proxyPort))
      && (ProxyActive(c) && c.nonProxyHosts != "" ==>
            && "http.nonProxyHosts" in r && r["http.nonProxyHosts"] == c.nonProxyHosts
            && "https.nonProxyHosts" in r && r["https.nonProxyHosts"] == c.nonProxyHosts)
      && (!ProxyActive(c) || c.nonProxyHosts == "" ==>
            Kept(m, r, "http.nonProxyHosts") && Kept(m, r, "https.nonProxyHosts"))
      && (!ProxyActive(c) ==> forall k :: k in ProxyKeys ==> Kept(m, r, k))
  {
  }

  /** Sets `key` in a property table that still reads every setting the way
      the original table `before` does. */
  method SetOutsideConfig(sys: SystemProperties, ghost before: map<string, string>, key: string, value: string)
    requires key in WdmKeys
    requires AgreeOnConfig(before, sys.props)
    modifies sys
    ensures sys.props == old(sys.props)[key := value]
    ensures AgreeOnConfig(before, sys.props)
  {
    WdmKeysOutsideConfig();
    WriteOutsideConfig(sys.props, key, value);
    sys.SetProperty(key, value);
  }

  /** configureWebDriverManagerGlobally(): writes cache path, timeout and
      browser-detection always, the offline pair only in offline mode, the
      force-cache flag only when configured, and the proxy properties only for
      an enabled proxy with a non-empty host. Every setting is read afresh from
      the system properties being written, which the writes never disturb. */
  method ConfigureWebDriverManagerGlobally(sys: SystemProperties, cm: ConfigManager)
    modifies sys
    ensures sys.props == WdmWrites(WdmSettingsOf(View(old(sys.props), cm.properties)), old(sys.props))
    ensures AgreeOnConfig(old(sys.props), sys.props)
  {
    ghost var before := sys.props;
    ghost var c := WdmSettingsOf(View(before, cm.properties));
    SetOutsideConfig(sys, before, "wdm.cachePath", DriverCachePath(View(sys.props, cm.properties)));
    SetOutsideConfig(sys, before, "wdm.timeout",
      IntToString(WebDriverManagerTimeout(View(sys.props, cm.properties))));
    SetOutsideConfig(sys, before, "wdm.avoidBrowserDetection", "true");
    assert sys.props == BaseWdmWrites(c, before);

    if WebDriverManagerOfflineEnabled(View(sys.props, cm.properties)) {
      SetOutsideConfig(sys, before, "wdm.avoidDownload", "true");
      SetOutsideConfig(sys, before, "wdm.avoidFallback", "false");
    }
    assert sys.props == OfflineWdmWrites(c, BaseWdmWrites(c, before));

    if WebDriverManagerForceCache(View(sys.props, cm.properties)) {
      SetOutsideConfig(sys, before, "wdm.forceCache", "true");
    }
    ghost var written := ForceCacheWdmWrites(c, OfflineWdmWrites(c, BaseWdmWrites(c, before)));
    assert sys.props == written;

    if ProxyEnabled(View(sys.props, cm.properties)) {
      var proxyHost := ProxyHost(View(sys.props, cm.properties));
      var proxyPort := ProxyPort(View(sys.props, cm.properties));
      if proxyHost != "" {
        SetOutsideConfig(sys, before, "wdm.proxy", proxyHost + ":" + IntToString(proxyPort));
        SetOutsideConfig(sys, before, "http.proxyHost", proxyHost);
        SetOutsideConfig(sys, before, "http.proxyPort", IntToString(proxyPort));
        SetOutsideConfig(sys, before, "https.proxyHost", proxyHost);
        SetOutsideConfig(sys, before, "https.proxyPort", IntToString(proxyPort));
        var nonProxyHosts := NonProxyHosts(View(sys.props, cm.properties));
        if nonProxyHosts != "" {
          SetOutsideConfig(sys, before, "http.nonProxyHosts", nonProxyHosts);
          SetOutsideConfig(sys, before, "https.nonProxyHosts", nonProxyHosts);
        }
      }
    }
  }

  // ---------------------------------------------------------------------------
  // Offline mode

  const OfflineKeys: set<string> := {"wdm.avoidDownload", "wdm.avoidFallback", "wdm.forceCache"}

  /** The table after enableOfflineMode(). */
  function WithOfflineMode(m: map<string, string>): map<string, string> {
    m["wdm.avoidDownload" := "true"]["wdm.avoidFallback" := "false"]["wdm.forceCache" := "true"]
  }

  /** The table after disableOfflineMode(). */
  function WithoutOfflineMode(m: map<string, string>): map<string, string> {
    m - OfflineKeys
  }

  /** enableOfflineMode(): avoid downloads, keep the fallback, force the cache. */
  method EnableOfflineMode(sys: SystemProperties)
    modifies sys
    ensures sys.props == WithOfflineMode(old(sys.props))
    ensures AgreeOnConfig(old(sys.props), sys.props)
  {
    ghost var before := sys.props;
    SetOutsideConfig(sys, before, "wdm.avoidDownload", "true");
    SetOutsideConfig(sys, before, "wdm.avoidFallback", "false");
    SetOutsideConfig(sys, before, "wdm.forceCache", "true");
  }

  /** disableOfflineMode(): clears exactly the three offline keys. */
  method DisableOfflineMode(sys: SystemProperties)
    modifies sys
    ensures sys.props == WithoutOfflineMode(old(sys.props))
    ensures AgreeOnConfig(old(sys.props), sys.props)
  {
    WdmKeysOutsideConfig();
    WriteOutsideConfig(sys.props, "wdm.avoidDownload", "");
    sys.ClearProperty("wdm.avoidDownload");
    WriteOutsideConfig(sys.props, "wdm.avoidFallback", "");
    sys.ClearProperty("wdm.avoidFallback");
    WriteOutsideConfig(sys.props, "wdm.forceCache", "");
    sys.ClearProperty("wdm.forceCache");
  }

  /** Offline mode sets the three keys to its values and leaves the rest. */
  lemma OfflineModeSettings(m: map<string, string>)
    ensures var r := WithOfflineMode(m);
      && r.Keys == m.Keys + OfflineKeys
      && r["wdm.avoidDownload"] == "true" && r["wdm.avoidFallback"] == "false" && r["wdm.forceCache"] == "true"
      && forall k :: k in m && k !in OfflineKeys ==> r[k] == m[k]
  {
  }

  /** Enabling and then disabling offline mode leaves the three keys absent
      and every other property as it was. */
  lemma OfflineModeRoundTrip(m: map<string, string>)
    ensures WithoutOfflineMode(WithOfflineMode(m)) == WithoutOfflineMode(m)
    ensures forall k :: k !in OfflineKeys ==>
      (k in WithoutOfflineMode(WithOfflineMode(m)) <==> k in m)
  {
  }

  // ---------------------------------------------------------------------------
  // Pre-downloading drivers

  /** The property WebDriverManager's setup() points at the driver it
      resolved, one per browser family. */
  const ChromeDriverProperty: string := "webdriver.chrome.driver"
  const GeckoDriverProperty: string := "webdriver.gecko.driver"
  const EdgeDriverProperty: string := "webdriver.edge.driver"
  const DriverProperties: set<string> := {ChromeDriverProperty, GeckoDriverProperty, EdgeDriverProperty}

  /** No driver property is a WebDriverManager key or a configuration key. */
  lemma DriverPropertiesOutside()
    ensures DriverProperties !! WdmKeys && DriverProperties !! ConfigKeys
  {
  }

  /** What WebDriverManager's setup() did: finished, having exported the
      path of the driver it resolved, or threw with a message. */
  datatype DownloadOutcome = DownloadSucceeded(driverPath: string) | DownloadFailed(message: string)

  /** One per-browser download: its own connectivity probe and the outcome
      WebDriverManager would report. */
  datatype DownloadAttempt = DownloadAttempt(probe: ProbeResult, outcome: DownloadOutcome)

  /** How a per-browser download ended; none of them reaches the caller as an exception. */
  datatype DownloadReport = Skipped | DownloadCompleted | FailedSoftly(message: string)

  /** downloadChromeDriver / downloadFirefoxDriver / downloadEdgeDriver: skipped
      without a connection, otherwise WebDriverManager's outcome with a failure
      logged and swallowed. */
  function DownloadDriver(attempt: DownloadAttempt): (r: DownloadReport)
    ensures r == Skipped <==> !IsInternetAvailable(attempt.probe)
    ensures r == DownloadCompleted <==> IsInternetAvailable(attempt.probe) && attempt.outcome.DownloadSucceeded?
    ensures r.FailedSoftly? ==> attempt.outcome == DownloadFailed(r.message)
  {
    if !IsInternetAvailable(attempt.probe) then Skipped
    else match attempt.outcome
      case DownloadSucceeded(_) => DownloadCompleted
      case DownloadFailed(message) => FailedSoftly(message)
  }

  /** The system properties after one download: a completed setup() has
      pointed the family's driver property at its driver. */
  function AfterDownload(property: string, attempt: DownloadAttempt, m: map<string, string>): map<string, string> {
    if DownloadDriver(attempt) == DownloadCompleted then m[property := attempt.outcome.driverPath] else m
  }

  /** The system properties after the Chrome, Firefox and Edge downloads, in that order. */
  function AfterDownloads(chrome: DownloadAttempt, firefox: DownloadAttempt, edge: DownloadAttempt,
                          m: map<string, string>): map<string, string> {
    AfterDownload(EdgeDriverProperty, edge,
      AfterDownload(GeckoDriverProperty, firefox,
        AfterDownload(ChromeDriverProperty, chrome, m)))
  }

  /** The three downloads touch no property but the three driver properties;
      each of those holds its driver exactly when its download completed and
      keeps its presence and value otherwise. */
  lemma AfterDownloadsWrites(chrome: DownloadAttempt, firefox: DownloadAttempt, edge: DownloadAttempt,
                             m: map<string, string>)
    ensures var r := AfterDownloads(chrome, firefox, edge, m);
      forall key :: key !in DriverProperties ==> Kept(m, r, key)
    ensures var r := AfterDownloads(chrome, firefox, edge, m);
      && (DownloadDriver(chrome) == DownloadCompleted ==>
            ChromeDriverProperty in r && r[ChromeDriverProperty] == chrome.outcome.driverPath)
      && (DownloadDriver(chrome) != DownloadCompleted ==> Kept(m, r, ChromeDriverProperty))
      && (DownloadDriver(firefox) == DownloadCompleted ==>
            GeckoDriverProperty in r && r[GeckoDriverProperty] == firefox.outcome.driverPath)
      && (DownloadDriver(firefox) != DownloadCompleted ==> Kept(m, r, GeckoDriverProperty))
      && (DownloadDriver(edge) == DownloadCompleted ==>
            EdgeDriverProperty in r && r[EdgeDriverProperty] == edge.outcome.driverPath)
      && (DownloadDriver(edge) != DownloadCompleted ==> Kept(m, r, EdgeDriverProperty))
  {
  }

  /** One download*Driver() call: the report, and the driver property a
      completed setup() writes. */
  method DownloadBrowserDriver(sys: SystemProperties, property: string, attempt: DownloadAttempt)
    returns (report: DownloadReport)
    requires property in DriverProperties
    modifies sys
    ensures report == DownloadDriver(attempt)
    ensures sys.props == AfterDownload(property, attempt, old(sys.props))
    ensures AgreeOnConfig(old(sys.props), sys.props)
  {
    if !IsInternetAvailable(attempt.probe) {
      return Skipped;
    }
    match attempt.outcome
    case DownloadSucceeded(driverPath) =>
      DriverPropertiesOutside();
      WriteOutsideConfig(sys.props, property, driverPath);
      sys.SetProperty(property, driverPath);
      report := DownloadCompleted;
    case DownloadFailed(message) =>
      report := FailedSoftly(message);
  }

  /** setupAllDriversOffline(): writes the WebDriverManager properties, then
      tries Chrome, Firefox and Edge in that order, each on its own. */
  method SetupAllDriversOffline(sys: SystemProperties, cm: ConfigManager,
                                chrome: DownloadAttempt, firefox: DownloadAttempt, edge: DownloadAttempt)
    returns (reports: seq<DownloadReport>)
    modifies sys
    ensures sys.props == AfterDownloads(chrome, firefox, edge,
                           WdmWrites(WdmSettingsOf(View(old(sys.props), cm.properties)), old(sys.props)))
    ensures reports == [DownloadDriver(chrome), DownloadDriver(firefox), DownloadDriver(edge)]
  {
    ConfigureWebDriverManagerGlobally(sys, cm);
    var c := DownloadBrowserDriver(sys, ChromeDriverProperty, chrome);
    var f := DownloadBrowserDriver(sys, GeckoDriverProperty, firefox);
    var e := DownloadBrowserDriver(sys, EdgeDriverProperty, edge);
    reports := [c, f, e];
  }

  const Banner: string := "=== Driver Setup Utility ==="
  const SetupDone: string := "Driver setup completed. Check logs for details."
  const UsageLines: seq<string> := [
    "Usage: java DriverSetupUtils setup",
    "This will download and cache all browser drivers for offline use."]

  /** main(args): runs the offline setup only when the first argument is
      exactly "setup"; otherwise prints the usage text. Returns the lines
      printed to standard output. */
  method RunCli(args: seq<string>, sys: SystemProperties, cm: ConfigManager,
                chrome: DownloadAttempt, firefox: DownloadAttempt, edge: DownloadAttempt)
    returns (output: seq<string>)
    modifies sys
    ensures |args| > 0 && args[0] == "setup" ==>
      output == [Banner, SetupDone]
      && sys.props == AfterDownloads(chrome, firefox, edge,
                        WdmWrites(WdmSettingsOf(View(old(sys.props), cm.properties)), old(sys.props)))
    ensures !(|args| > 0 && args[0] == "setup") ==>
      output == [Banner] + UsageLines && sys.props == old(sys.props)
  {
    output := [Banner];
    if |args| > 0 && args[0] == "setup" {
      var _ := SetupAllDriversOffline(sys, cm, chrome, firefox, edge);
      output := output + [SetupDone];
    } else {
      output := output + UsageLines;
    }
  }
}
