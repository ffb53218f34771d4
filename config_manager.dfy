/** ConfigManager: every setting is looked up first among the JVM's system
    properties, then in the loaded application.properties file, then falls back
    to a built-in default. Booleans and ints are parsed the way
    Boolean.parseBoolean and Integer.parseInt parse them. */
module Config {
  import opened Wrappers
  import opened JavaLang

  /** The two places a setting can come from: the JVM system properties (which
      other code may change at any time) and the file loaded at start-up. */
  datatype Sources = Sources(system: map<string, string>, file: map<string, string>)

  /** getProperty(key): the system property when set, else the file property,
      else null. */
  function GetProperty(s: Sources, key: string): (r: Option<string>)
    ensures r.None? <==> key !in s.system && key !in s.file
    ensures key in s.system ==> r == Some(s.system[key])
    ensures key !in s.system && key in s.file ==> r == Some(s.file[key])
  {
    if key in s.system then Some(s.system[key])
    else if key in s.file then Some(s.file[key])
    else None
  }

  /** getProperty(key, defaultValue): the default only when both sources lack the key. */
  function GetPropertyOr(s: Sources, key: string, default: string): (r: string)
    ensures key !in s.system && key !in s.file ==> r == default
    ensures key in s.system ==> r == s.system[key]
    ensures key !in s.system && key in s.file ==> r == s.file[key]
  {
    var value := GetProperty(s, key);
    if value.Some? then value.value else default
  }

  /** getBooleanProperty(key): true exactly when the value is "true" ignoring
      case; an absent key reads as false. */
  function GetBooleanProperty(s: Sources, key: string): (r: bool)
    ensures r <==> GetProperty(s, key).Some? && ToLowerCase(GetProperty(s, key).value) == "true"
  {
    ParseBooleanIsLowerTrue(GetProperty(s, key));
    ParseBoolean(GetProperty(s, key))
  }

  /** getBooleanProperty(key, defaultValue): the default only for an absent
      key; a present value that is not "true" ignoring case reads as false
      even when the default is true. */
  function GetBooleanPropertyOr(s: Sources, key: string, default: bool): (r: bool)
    ensures GetProperty(s, key).None? ==> r == default
    ensures GetProperty(s, key).Some? ==> (r <==> ToLowerCase(GetProperty(s, key).value) == "true")
  {
    var value := GetProperty(s, key);
    ParseBooleanIsLowerTrue(value);
    if value.Some? then ParseBoolean(value) else default
  }

  /** getIntProperty(key): None stands for the NumberFormatException thrown
      when the key is absent or its value is not the decimal text of an int
      ("abc", "1.5", "-", "2147483648"); otherwise the value that text denotes. */
  function GetIntProperty(s: Sources, key: string): (r: Option<int>)
    ensures r.Some? <==> GetProperty(s, key).Some? && DecimalInt(GetProperty(s, key).value)
    ensures r.Some? ==> r.value == SignedValue(GetProperty(s, key).value) && IsInt(r.value)
  {
    ParseInt(GetProperty(s, key))
  }

  /** getIntProperty(key, defaultValue): the default when the key is absent or
      its value does not parse; whatever is read is an int when the default is. */
  function GetIntPropertyOr(s: Sources, key: string, default: int): (r: int)
    ensures GetProperty(s, key).None? ==> r == default
    ensures GetProperty(s, key).Some? && !DecimalInt(GetProperty(s, key).value) ==> r == default
    ensures GetProperty(s, key).Some? && DecimalInt(GetProperty(s, key).value) ==>
      r == SignedValue(GetProperty(s, key).value)
    ensures IsInt(default) ==> IsInt(r)
  {
    var n := GetIntProperty(s, key);
    if n.Some? then n.value else default
  }

  /** A setting holding the decimal form of an int reads as that int, with or
      without a default. */
  lemma IntPropertyReads(s: Sources, key: string, default: int, n: int)
    requires IsInt(n) && GetProperty(s, key) == Some(IntToString(n))
    ensures GetIntProperty(s, key) == Some(n)
    ensures GetIntPropertyOr(s, key, default) == n
  {
    ParseIntRoundTrip(n);
  }

  // ---------------------------------------------------------------------------
  // Typed getters

  // Browser
  function Browser(s: Sources): string { GetPropertyOr(s, "browser", "chrome") }
  function BrowserHeadless(s: Sources): bool { GetBooleanProperty(s, "browser.headless") }
  function BrowserMaximize(s: Sources): bool { GetBooleanProperty(s, "browser.maximize") }
  function BrowserIncognito(s: Sources): bool { GetBooleanProperty(s, "browser.incognito") }
  function BrowserWindowWidth(s: Sources): int { GetIntPropertyOr(s, "browser.window.width", 1920) }
  function BrowserWindowHeight(s: Sources): int { GetIntPropertyOr(s, "browser.window.height", 1080) }

  // Test execution
  function ThreadCount(s: Sources): int { GetIntPropertyOr(s, "test.thread.count", 1) }
  function RetryCount(s: Sources): int { GetIntPropertyOr(s, "test.retry.count", 1) }
  function ImplicitTimeout(s: Sources): int { GetIntPropertyOr(s, "test.timeout.implicit", 10) }
  function ExplicitTimeout(s: Sources): int { GetIntPropertyOr(s, "test.timeout.explicit", 30) }
  function PageLoadTimeout(s: Sources): int { GetIntPropertyOr(s, "test.timeout.page.load", 60) }

  // Environment
  function BaseUrl(s: Sources): string { GetPropertyOr(s, "base.url", "https://www.saucedemo.com/v1/index.html") }
  function Environment(s: Sources): string { GetPropertyOr(s, "environment", "dev") }

  // Reporting
  function ExtentReportsEnabled(s: Sources): bool { GetBooleanProperty(s, "reports.extent.enabled") }
  function ScreenshotsEnabled(s: Sources): bool { GetBooleanProperty(s, "reports.screenshots.enabled") }
  function ScreenshotOnFailure(s: Sources): bool { GetBooleanProperty(s, "reports.screenshots.on.failure") }
  function ScreenshotOnPass(s: Sources): bool { GetBooleanProperty(s, "reports.screenshots.on.pass") }

  // Test data
  function TestDataPath(s: Sources): string { GetPropertyOr(s, "testdata.path", "src/test/resources/testdata/") }
  function TestDataFormat(s: Sources): string { GetPropertyOr(s, "testdata.format", "json") }

  // Driver management
  function DriverAutoDownload(s: Sources): bool { GetBooleanPropertyOr(s, "driver.auto.download", true) }
  function DriverOfflineMode(s: Sources): bool { GetBooleanPropertyOr(s, "driver.offline.mode", false) }
  function DriverCachePath(s: Sources): string { GetPropertyOr(s, "driver.cache.path", "./drivers/.cache") }
  function DriverLocalPath(s: Sources): string { GetPropertyOr(s, "driver.local.path", "./drivers") }
  function DriverDownloadTimeout(s: Sources): int { GetIntPropertyOr(s, "driver.download.timeout", 30) }

  // Proxy
  function ProxyEnabled(s: Sources): bool { GetBooleanPropertyOr(s, "proxy.enabled", false) }
  function ProxyHost(s: Sources): string { GetPropertyOr(s, "proxy.host", "") }
  function ProxyPort(s: Sources): int { GetIntPropertyOr(s, "proxy.port", 8080) }
  function ProxyUsername(s: Sources): string { GetPropertyOr(s, "proxy.username", "") }
  function ProxyPassword(s: Sources): string { GetPropertyOr(s, "proxy.password", "") }
  function NonProxyHosts(s: Sources): string { GetPropertyOr(s, "proxy.non.proxy.hosts", "localhost|127.0.0.1") }

  // WebDriverManager
  function WebDriverManagerTimeout(s: Sources): int { GetIntPropertyOr(s, "webdrivermanager.timeout", 30) }
  function WebDriverManagerCacheEnabled(s: Sources): bool { GetBooleanPropertyOr(s, "webdrivermanager.cache.enabled", true) }
  function WebDriverManagerOfflineEnabled(s: Sources): bool { GetBooleanPropertyOr(s, "webdrivermanager.offline.enabled", false) }
  function WebDriverManagerForceCache(s: Sources): bool { GetBooleanPropertyOr(s, "webdrivermanager.force.cache", false) }

  /** Every key a typed getter reads. */
  const ConfigKeys: set<string> := {
    "browser", "browser.headless", "browser.maximize", "browser.incognito",
    "browser.window.width", "browser.window.height",
    "test.thread.count", "test.retry.count", "test.timeout.implicit",
    "test.timeout.explicit", "test.timeout.page.load",
    "base.url", "environment",
    "reports.extent.enabled", "reports.screenshots.enabled",
    "reports.screenshots.on.failure", "reports.screenshots.on.pass",
    "testdata.path", "testdata.format",
    "driver.auto.download", "driver.offline.mode", "driver.cache.path",
    "driver.local.path", "driver.download.timeout",
    "proxy.enabled", "proxy.host", "proxy.port", "proxy.username",
    "proxy.password", "proxy.non.proxy.hosts",
    "webdrivermanager.timeout", "webdrivermanager.cache.enabled",
    "webdrivermanager.offline.enabled", "webdrivermanager.force.cache"
  }

  /** Neither source sets any configuration key. */
  predicate Unset(s: Sources) {
    s.system.Keys !! ConfigKeys && s.file.Keys !! ConfigKeys
  }

  /** Browser, window, retry and timeout defaults when nothing overrides them. */
  lemma BrowserAndTimeoutDefaults(s: Sources)
    requires Unset(s)
    ensures Browser(s) == "chrome"
    ensures !BrowserHeadless(s) && !BrowserMaximize(s) && !BrowserIncognito(s)
    ensures BrowserWindowWidth(s) == 1920 && BrowserWindowHeight(s) == 1080
    ensures RetryCount(s) == 1 && ThreadCount(s) == 1
    ensures ImplicitTimeout(s) == 10 && ExplicitTimeout(s) == 30 && PageLoadTimeout(s) == 60
  {
  }

  /** Driver-management and proxy defaults when nothing overrides them. */
  lemma DriverAndProxyDefaults(s: Sources)
    requires Unset(s)
    ensures DriverAutoDownload(s) && !DriverOfflineMode(s)
    ensures DriverCachePath(s) == "./drivers/.cache" && DriverLocalPath(s) == "./drivers"
    ensures DriverDownloadTimeout(s) == 30
    ensures !ProxyEnabled(s) && ProxyHost(s) == "" && ProxyPort(s) == 8080
    ensures NonProxyHosts(s) == "localhost|127.0.0.1"
    ensures WebDriverManagerTimeout(s) == 30 && WebDriverManagerCacheEnabled(s)
    ensures !WebDriverManagerOfflineEnabled(s) && !WebDriverManagerForceCache(s)
  {
  }

  /** Environment, reporting and test-data defaults when nothing overrides
      them: every report switch is off. */
  lemma EnvironmentAndReportDefaults(s: Sources)
    requires Unset(s)
    ensures BaseUrl(s) == "https://www.saucedemo.com/v1/index.html" && Environment(s) == "dev"
    ensures !ExtentReportsEnabled(s) && !ScreenshotsEnabled(s)
    ensures !ScreenshotOnFailure(s) && !ScreenshotOnPass(s)
    ensures TestDataPath(s) == "src/test/resources/testdata/" && TestDataFormat(s) == "json"
  {
  }

  /** The part of a system-property table the configuration reads. */
  function ConfigPart(m: map<string, string>): (r: map<string, string>)
    ensures r.Keys == m.Keys * ConfigKeys
    ensures forall k :: k in r ==> r[k] == m[k]
  {
    map k | k in m && k in ConfigKeys :: m[k]
  }

  /** What ConfigManager's getters see of the system properties and the
      loaded file. Every typed getter reads a key in ConfigKeys, so it reads
      the same value here as from the full table (ViewReadsConfigKeys). */
  function View(system: map<string, string>, file: map<string, string>): Sources {
    Sources(ConfigPart(system), file)
  }

  lemma ViewReadsConfigKeys(system: map<string, string>, file: map<string, string>, key: string)
    requires key in ConfigKeys
    ensures GetProperty(View(system, file), key) == GetProperty(Sources(system, file), key)
  {
  }

  /** Two system-property tables that agree on every configuration key. */
  predicate AgreeOnConfig(m1: map<string, string>, m2: map<string, string>) {
    ConfigPart(m1) == ConfigPart(m2)
  }

  /** Setting or clearing a property that is not a configuration key changes no setting. */
  lemma WriteOutsideConfig(m: map<string, string>, key: string, value: string)
    requires key !in ConfigKeys
    ensures AgreeOnConfig(m, m[key := value])
    ensures AgreeOnConfig(m, m - {key})
  {
    assert ConfigPart(m[key := value]).Keys == ConfigPart(m).Keys;
    assert ConfigPart(m - {key}).Keys == ConfigPart(m).Keys;
  }

  // ---------------------------------------------------------------------------
  // The loaded configuration and the singleton that holds it

  /** A loaded configuration: the properties read from application.properties. */
  class ConfigManager {
    const properties: map<string, string>

    constructor (loaded: map<string, string>)
      ensures properties == loaded
    {
      properties := loaded;
    }
  }

  const ConfigPath: string := "src/main/resources/config/application.properties"

  /** ConfigManager's static `instance` field. */
  class ConfigSingleton {
    var instance: ConfigManager?

    constructor ()
      ensures instance == null
    {
      instance := null;
    }

    /** getInstance(): the first successful call loads the file and keeps the
        manager; every later call returns that same object. `loaded` is what
        reading the file gives, None when it cannot be read (the constructor
        then throws and nothing is kept). */
    method GetInstance(loaded: Option<map<string, string>>) returns (r: Result<ConfigManager>)
      modifies this
      ensures old(instance) != null ==> r == Ok(old(instance)) && instance == old(instance)
      ensures old(instance) == null && loaded.Some? ==>
        r.Ok? && fresh(r.value) && r.value.properties == loaded.value && instance == r.value
      ensures old(instance) == null && loaded.None? ==>
        r == Err("Configuration file not found: " + ConfigPath) && instance == null
    {
      if instance == null {
        if loaded.None? {
          return Err("Configuration file not found: " + ConfigPath);
        }
        instance := new ConfigManager(loaded.value);
      }
      r := Ok(instance);
    }
  }
}
