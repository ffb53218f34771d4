/** DriverOptions: which browser family a configured name selects, and the
    command-line arguments and experimental options each family's driver is
    started with. The options depend only on the family and the headless and
    incognito settings. */
module DriverOptions {
  import opened JavaLang

  datatype BrowserFamily = Chrome | Firefox | Edge

  /** createDriver's switch on the (already lower-cased) browser name: the
      three supported names pick their own family, anything else falls back
      to Chrome. */
  function BrowserFor(name: string): (b: BrowserFamily)
    ensures b == Firefox <==> name == "firefox"
    ensures b == Edge <==> name == "edge"
    ensures b == Chrome <==> name != "firefox" && name != "edge"
  {
    match name
    case "chrome" => Chrome
    case "firefox" => Firefox
    case "edge" => Edge
    case _ => Chrome
  }

  /** The configured name is lower-cased first, so the choice ignores case. */
  lemma BrowserChoiceIgnoresCase(a: string, b: string)
    requires EqualsIgnoreCase(a, b)
    ensures BrowserFor(ToLowerCase(a)) == BrowserFor(ToLowerCase(b))
  {
    EqualsIgnoreCaseIsLowerEqual(a, b);
  }

  /** Any capitalisation of "Firefox" or "EDGE" selects that family. */
  lemma MixedCaseNames()
    ensures BrowserFor(ToLowerCase("FireFox")) == Firefox
    ensures BrowserFor(ToLowerCase("EDGE")) == Edge
    ensures BrowserFor(ToLowerCase("Safari")) == Chrome
  {
    assert ToLowerCase("FireFox") == "firefox";
    assert ToLowerCase("EDGE") == "edge";
    assert |ToLowerCase("Safari")| == 6;
  }

  /** A value given to setExperimentalOption. */
  datatype ExperimentalOption = Flag(enabled: bool) | Strings(values: seq<string>)

  /** The command-line arguments the option builders add, one constructor per
      distinct flag; Spelling gives the text passed to the browser. */
  datatype Argument =
    | HeadlessNew | HeadlessClassic | Incognito | InPrivate
    | NoSandbox | DisableDevShmUsage | DisableGpu | DisableExtensions | NoFirstRun
    | DisableDefaultApps | DisablePopupBlocking | DisableTranslate
    | DisableBackgroundTimerThrottling | DisableRendererBackgrounding
    | DisableBackgroundingOccludedWindows | RemoteAllowOriginsAny
    | DisableAutomationControlled | DisableIpcFloodingProtection
    | WindowWidth(px: int) | WindowHeight(px: int) | UserAgent(agent: string)

  function Spelling(a: Argument): string {
    match a
    case HeadlessNew => "--headless=new"
    case HeadlessClassic => "--headless"
    case Incognito => "--incognito"
    case InPrivate => "--inprivate"
    case NoSandbox => "--no-sandbox"
    case DisableDevShmUsage => "--disable-dev-shm-usage"
    case DisableGpu => "--disable-gpu"
    case DisableExtensions => "--disable-extensions"
    case NoFirstRun => "--no-first-run"
    case DisableDefaultApps => "--disable-default-apps"
    case DisablePopupBlocking => "--disable-popup-blocking"
    case DisableTranslate => "--disable-translate"
    case DisableBackgroundTimerThrottling => "--disable-background-timer-throttling"
    case DisableRendererBackgrounding => "--disable-renderer-backgrounding"
    case DisableBackgroundingOccludedWindows => "--disable-backgrounding-occluded-windows"
    case RemoteAllowOriginsAny => "--remote-allow-origins=*"
    case DisableAutomationControlled => "--disable-blink-features=AutomationControlled"
    case DisableIpcFloodingProtection => "--disable-ipc-flooding-protection"
    case WindowWidth(px) => "--width=" + IntToString(px)
    case WindowHeight(px) => "--height=" + IntToString(px)
    case UserAgent(agent) => "--user-agent=" + agent
  }

  /** The arguments, in the order they were added, and the experimental options. */
  datatype BrowserOptions = BrowserOptions(
    browser: BrowserFamily, arguments: seq<Argument>, experimental: map<string, ExperimentalOption>)

  /** The argument list as the browser receives it. */
  function CommandLine(o: BrowserOptions): (r: seq<string>)
    ensures |r| == |o.arguments|
    ensures forall i :: 0 <= i < |r| ==> r[i] == Spelling(o.arguments[i])
  {
    seq(|o.arguments|, i requires 0 <= i < |o.arguments| => Spelling(o.arguments[i]))
  }

  /** The Chrome flags added whatever the configuration says. */
  const ChromeFixedArguments: seq<Argument> := [
    NoSandbox, DisableDevShmUsage, DisableGpu, DisableExtensions, NoFirstRun,
    DisableDefaultApps, DisablePopupBlocking, DisableTranslate,
    DisableBackgroundTimerThrottling, DisableRendererBackgrounding,
    DisableBackgroundingOccludedWindows, RemoteAllowOriginsAny,
    DisableAutomationControlled, DisableIpcFloodingProtection]

  const ChromeUserAgent: string :=
    "Mozilla/5.0 (Windows NT 10.0; Win64; x64) AppleWebKit/537.36 (KHTML, like Gecko) Chrome/131.0.0.0 Safari/537.36"

  /** The Edge flags added whatever the configuration says. */
  const EdgeFixedArguments: seq<Argument> := [
    NoSandbox, DisableDevShmUsage, DisableGpu, DisableExtensions, NoFirstRun,
    DisableDefaultApps, DisablePopupBlocking, DisableTranslate,
    RemoteAllowOriginsAny, DisableAutomationControlled]

  /** The options that hide that the browser is automated (Chrome and Edge). */
  const HideAutomation: map<string, ExperimentalOption> :=
    map["useAutomationExtension" := Flag(false), "excludeSwitches" := Strings(["enable-automation"])]

  /** No fixed flag is one of the flags the configuration switches. */
  lemma FixedArgumentsUnswitched()
    ensures HeadlessNew !in ChromeFixedArguments && Incognito !in ChromeFixedArguments
    ensures InPrivate !in ChromeFixedArguments && HeadlessClassic !in ChromeFixedArguments
    ensures HeadlessNew !in EdgeFixedArguments && InPrivate !in EdgeFixedArguments
    ensures Incognito !in EdgeFixedArguments && UserAgent(ChromeUserAgent) !in EdgeFixedArguments
    ensures |ChromeFixedArguments| == 14 && |EdgeFixedArguments| == 10
  {
  }

  /** The argument a flag contributes: itself when set, nothing otherwise. */
  function FlagArgument(set_: bool, argument: Argument): (r: seq<Argument>)
    ensures argument in r <==> set_
    ensures |r| <= 1
  {
    if set_ then [argument] else []
  }

  /** The arguments createChromeOptions() adds, in the order it adds them. */
  function ChromeArguments(headless: bool, incognito: bool): seq<Argument> {
    FlagArgument(headless, HeadlessNew) + FlagArgument(incognito, Incognito)
      + (ChromeFixedArguments + [UserAgent(ChromeUserAgent)])
  }

  /** createChromeOptions(): headless and incognito flags first when set, then
      the fixed flags, then the user agent; automation indicators removed. */
  function ChromeOptions(headless: bool, incognito: bool): (o: BrowserOptions)
    ensures o.browser == Chrome
    ensures HeadlessNew in o.arguments <==> headless
    ensures Incognito in o.arguments <==> incognito
    ensures InPrivate !in o.arguments && HeadlessClassic !in o.arguments
    ensures forall a :: a in ChromeFixedArguments ==> a in o.arguments
    ensures |o.arguments| == |ChromeFixedArguments| + 1 + (if headless then 1 else 0) + (if incognito then 1 else 0)
    ensures o.arguments[|o.arguments| - 1] == UserAgent(ChromeUserAgent)
    ensures headless ==> o.arguments[0] == HeadlessNew
    ensures incognito ==> o.arguments[if headless then 1 else 0] == Incognito
    ensures o.arguments[(if headless then 1 else 0) + (if incognito then 1 else 0)..]
      == ChromeFixedArguments + [UserAgent(ChromeUserAgent)]
    ensures o.experimental == HideAutomation
  {
    FixedArgumentsUnswitched();
    var flags := FlagArgument(headless, HeadlessNew) + FlagArgument(incognito, Incognito);
    assert ChromeArguments(headless, incognito)[|flags|..] == ChromeFixedArguments + [UserAgent(ChromeUserAgent)];
    BrowserOptions(Chrome, ChromeArguments(headless, incognito), HideAutomation)
  }

  /** createFirefoxOptions(): headless when set, then fixed flags including a
      1920x1080 window; incognito is not consulted and no experimental option is set. */
  function FirefoxOptions(headless: bool): (o: BrowserOptions)
    ensures o.browser == Firefox
    ensures HeadlessClassic in o.arguments <==> headless
    ensures WindowWidth(1920) in o.arguments && WindowHeight(1080) in o.arguments
    ensures NoSandbox in o.arguments && DisableDevShmUsage in o.arguments
    ensures |o.arguments| == 4 + (if headless then 1 else 0)
    ensures HeadlessNew !in o.arguments && Incognito !in o.arguments && InPrivate !in o.arguments
    ensures o.experimental == map[]
  {
    BrowserOptions(Firefox,
      FlagArgument(headless, HeadlessClassic)
        + [NoSandbox, DisableDevShmUsage, WindowWidth(1920), WindowHeight(1080)],
      map[])
  }

  /** The arguments createEdgeOptions() adds, in the order it adds them. */
  function EdgeArguments(headless: bool, incognito: bool): seq<Argument> {
    FlagArgument(headless, HeadlessNew) + FlagArgument(incognito, InPrivate) + EdgeFixedArguments
  }

  /** createEdgeOptions(): like Chrome, but incognito is "--inprivate", fewer
      fixed flags and no user agent. */
  function EdgeOptions(headless: bool, incognito: bool): (o: BrowserOptions)
    ensures o.browser == Edge
    ensures HeadlessNew in o.arguments <==> headless
    ensures InPrivate in o.arguments <==> incognito
    ensures Incognito !in o.arguments && UserAgent(ChromeUserAgent) !in o.arguments
    ensures forall a :: a in EdgeFixedArguments ==> a in o.arguments
    ensures |o.arguments| == |EdgeFixedArguments| + (if headless then 1 else 0) + (if incognito then 1 else 0)
    ensures headless ==> o.arguments[0] == HeadlessNew
    ensures incognito ==> o.arguments[if headless then 1 else 0] == InPrivate
    ensures o.arguments[(if headless then 1 else 0) + (if incognito then 1 else 0)..] == EdgeFixedArguments
    ensures o.experimental == HideAutomation
  {
    FixedArgumentsUnswitched();
    var flags := FlagArgument(headless, HeadlessNew) + FlagArgument(incognito, InPrivate);
    assert EdgeArguments(headless, incognito)[|flags|..] == EdgeFixedArguments;
    BrowserOptions(Edge, EdgeArguments(headless, incognito), HideAutomation)
  }

  /** The options the chosen family's driver is created with. */
  function OptionsFor(b: BrowserFamily, headless: bool, incognito: bool): (o: BrowserOptions)
    ensures o.browser == b
  {
    match b
    case Chrome => ChromeOptions(headless, incognito)
    case Firefox => FirefoxOptions(headless)
    case Edge => EdgeOptions(headless, incognito)
  }

  /** Firefox's options are the same in and out of incognito. */
  lemma FirefoxIgnoresIncognito(headless: bool)
    ensures OptionsFor(Firefox, headless, true) == OptionsFor(Firefox, headless, false)
  {
  }

  /** Chrome's headless flag goes in front of the arguments it has without it. */
  lemma ChromeHeadlessPrepends(incognito: bool)
    ensures ChromeArguments(true, incognito) == [HeadlessNew] + ChromeArguments(false, incognito)
  {
    var flag := FlagArgument(incognito, Incognito);
    var tail := ChromeFixedArguments + [UserAgent(ChromeUserAgent)];
    assert ChromeArguments(false, incognito) == ([] + flag) + tail;
    assert ([] + flag) + tail == flag + tail;
  }

  /** Edge's headless flag goes in front of the arguments it has without it. */
  lemma EdgeHeadlessPrepends(incognito: bool)
    ensures EdgeArguments(true, incognito) == [HeadlessNew] + EdgeArguments(false, incognito)
  {
    var flag := FlagArgument(incognito, InPrivate);
    assert EdgeArguments(false, incognito) == ([] + flag) + EdgeFixedArguments;
    assert ([] + flag) + EdgeFixedArguments == flag + EdgeFixedArguments;
  }

  /** Turning headless on only puts the headless flag in front; every other
      argument stays in place. */
  lemma HeadlessOnlyPrependsFlag(b: BrowserFamily, incognito: bool)
    ensures var on := OptionsFor(b, true, incognito);
            var off := OptionsFor(b, false, incognito);
      && on.arguments == [if b == Firefox then HeadlessClassic else HeadlessNew] + off.arguments
      && on.experimental == off.experimental
  {
    match b
    case Chrome => ChromeHeadlessPrepends(incognito);
    case Firefox =>
    case Edge => EdgeHeadlessPrepends(incognito);
  }

  /** The spelled-out Chrome command line: "--headless=new" leads exactly when
      headless is on, and the user agent closes it. */
  lemma ChromeCommandLine(headless: bool, incognito: bool)
    ensures var line := CommandLine(ChromeOptions(headless, incognito));
      && (headless ==> line[0] == "--headless=new")
      && (!headless && incognito ==> line[0] == "--incognito")
      && line[|line| - 1] == "--user-agent=" + ChromeUserAgent
  {
  }
}
