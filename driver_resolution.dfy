/** DriverResolution: how DriverManager finds the executable for a browser's
    driver. Local directory, then cache directory; then a WebDriverManager
    download when auto-download is on and the connectivity probe answers;
    then the PATH entries; then six fixed installation directories. Every
    step but the last fails softly; only an empty-handed search is an error. */
module DriverResolution {
  import opened Wrappers
  import opened JavaLang
  import opened Config
  import opened DriverSetupUtils
  import opened DriverOptions

  /** The executable file name, the system property that points Selenium at
      it, and the name used in messages, per browser family. */
  datatype DriverKind = DriverKind(executable: string, property: string, displayName: string)

  function KindOf(b: BrowserFamily): (k: DriverKind)
    ensures k.property !in ConfigKeys && k.property !in WdmKeys
  {
    match b
    case Chrome => DriverKind("chromedriver.exe", ChromeDriverProperty, "ChromeDriver")
    case Firefox => DriverKind("geckodriver.exe", GeckoDriverProperty, "FirefoxDriver")
    case Edge => DriverKind("msedgedriver.exe", EdgeDriverProperty, "EdgeDriver")
  }

  /** What the machine offers the search: its files, the PATH environment
      variable (None when unset) and the path.separator property. */
  datatype Host = Host(fs: FileSystem, pathEnv: Option<string>, pathSeparator: char)

  /** The installation directories searched after PATH, in order. */
  const CommonInstallDirs: seq<string> := [
    "C:/Program Files/Google/Chrome/Application",
    "C:/Program Files (x86)/Google/Chrome/Application",
    "C:/Program Files/Microsoft/Edge/Application",
    "C:/Program Files (x86)/Microsoft/Edge/Application",
    "C:/Program Files/Mozilla Firefox",
    "C:/Program Files (x86)/Mozilla Firefox"]

  /** The position of the first directory holding a runnable `name`. */
  function FirstRunnable(fs: FileSystem, dirs: seq<string>, name: string): (r: Option<nat>)
    ensures r.Some? ==> r.value < |dirs| && Runnable(fs, FileIn(dirs[r.value], name))
    ensures r.Some? ==> forall j :: 0 <= j < r.value ==> !Runnable(fs, FileIn(dirs[j], name))
    ensures r.None? ==> forall j :: 0 <= j < |dirs| ==> !Runnable(fs, FileIn(dirs[j], name))
  {
    if dirs == [] then None
    else if Runnable(fs, FileIn(dirs[0], name)) then Some(0)
    else
      var rest := FirstRunnable(fs, dirs[1..], name);
      if rest.None? then None else Some(rest.value + 1)
  }

  /** Where a driver was found, or that it was not. */
  datatype Resolution =
    | Local(path: string)
    | Cache(path: string)
    | Downloaded(path: string)
    | SystemPath(path: string)
    | CommonInstall(path: string)
    | NotFound

  /** findDriverInPath as a specification: an unset PATH ends the search at
      once; otherwise the first PATH entry with a runnable file, then the
      first installation directory with one. */
  function PathLookup(host: Host, name: string): (r: Resolution)
    ensures r.SystemPath? || r.CommonInstall? || r.NotFound?
  {
    if host.pathEnv.None? then NotFound
    else
      var entries := Split(host.pathEnv.value, host.pathSeparator);
      var inPath := FirstRunnable(host.fs, entries, name);
      if inPath.Some? then SystemPath(FileIn(entries[inPath.value], name))
      else
        var installed := FirstRunnable(host.fs, CommonInstallDirs, name);
        if installed.Some? then CommonInstall(FileIn(CommonInstallDirs[installed.value], name))
        else NotFound
  }

  /** The path findDriverInPath returns for a lookup: the file, or null. */
  function FoundPath(r: Resolution): (p: Option<string>)
    ensures p.Some? <==> r.Local? || r.Cache? || r.SystemPath? || r.CommonInstall?
  {
    match r
    case Local(path) => Some(path)
    case Cache(path) => Some(path)
    case SystemPath(path) => Some(path)
    case CommonInstall(path) => Some(path)
    case _ => None
  }

  /** findDriverInPath(name): the two loops over PATH entries and
      installation directories, returning at the first runnable file. */
  method FindDriverInPath(host: Host, name: string) returns (found: Option<string>)
    ensures found == FoundPath(PathLookup(host, name))
  {
    if host.pathEnv.None? {
      return None;
    }
    var paths := Split(host.pathEnv.value, host.pathSeparator);
    var i := 0;
    while i < |paths|
      invariant 0 <= i <= |paths|
      invariant forall j :: 0 <= j < i ==> !Runnable(host.fs, FileIn(paths[j], name))
    {
      var driverFile := FileIn(paths[i], name);
      if Exists(host.fs, driverFile) && driverFile in host.fs.executable {
        return Some(driverFile);
      }
      i := i + 1;
    }
    var commonPaths := CommonInstallDirs;
    var k := 0;
    while k < |commonPaths|
      invariant 0 <= k <= |commonPaths|
      invariant forall j :: 0 <= j < k ==> !Runnable(host.fs, FileIn(commonPaths[j], name))
    {
      var driverFile := FileIn(commonPaths[k], name);
      if Exists(host.fs, driverFile) && driverFile in host.fs.executable {
        return Some(driverFile);
      }
      k := k + 1;
    }
    return None;
  }

  /** setup{Chrome,Firefox,Edge}Driver as a specification: the local or
      cached file when one exists; else a download when auto-download is on,
      the probe succeeds and WebDriverManager completes; else the PATH search. */
  function Resolve(host: Host, s: Sources, probe: ProbeResult, download: DownloadOutcome, k: DriverKind): Resolution {
    var onDisk := GetDriverPath(host.fs, s, k.executable);
    if onDisk.Some? then
      if onDisk.value == LocalDriverFile(s, k.executable) then Local(onDisk.value) else Cache(onDisk.value)
    else if DriverAutoDownload(s) && IsInternetAvailable(probe) && download.DownloadSucceeded? then Downloaded(download.driverPath)
    else PathLookup(host, k.executable)
  }

  /** A file in the local or cache directory is used as it is: no download
      and no PATH search. The local file wins over the cached one. */
  lemma LocalFileWins(host: Host, s: Sources, probe: ProbeResult, download: DownloadOutcome, k: DriverKind)
    ensures Exists(host.fs, LocalDriverFile(s, k.executable)) ==>
      Resolve(host, s, probe, download, k) == Local(LocalDriverFile(s, k.executable))
    ensures !Exists(host.fs, LocalDriverFile(s, k.executable)) && Exists(host.fs, CachedDriverFile(s, k.executable)) ==>
      Resolve(host, s, probe, download, k) == Cache(CachedDriverFile(s, k.executable))
  {
  }

  /** A download is used exactly when nothing is on disk, auto-download is
      on, the probe answered 200 and WebDriverManager completed. */
  lemma DownloadOnlyWhenOnline(host: Host, s: Sources, probe: ProbeResult, download: DownloadOutcome, k: DriverKind)
    ensures Resolve(host, s, probe, download, k).Downloaded? <==>
      GetDriverPath(host.fs, s, k.executable).None? && DriverAutoDownload(s)
      && probe == Response(200) && download.DownloadSucceeded?
    ensures Resolve(host, s, probe, download, k).Downloaded? ==>
      Resolve(host, s, probe, download, k).path == download.driverPath
  {
  }

  /** A failed download or a missing connection is not an error: the search
      goes on in PATH and the installation directories. */
  lemma FailedDownloadFallsBackToPath(host: Host, s: Sources, probe: ProbeResult, message: string,
                                      driverPath: string, k: DriverKind)
    requires GetDriverPath(host.fs, s, k.executable).None?
    ensures Resolve(host, s, probe, DownloadFailed(message), k) == PathLookup(host, k.executable)
    ensures Resolve(host, s, ConnectionFailed, DownloadSucceeded(driverPath), k) == PathLookup(host, k.executable)
  {
  }

  /** The only failure: nothing on disk, no successful download and nothing
      in PATH or the installation directories. */
  lemma NotFoundIff(host: Host, s: Sources, probe: ProbeResult, download: DownloadOutcome, k: DriverKind)
    ensures Resolve(host, s, probe, download, k) == NotFound <==>
      && GetDriverPath(host.fs, s, k.executable).None?
      && !(DriverAutoDownload(s) && IsInternetAvailable(probe) && download.DownloadSucceeded?)
      && PathLookup(host, k.executable) == NotFound
  {
  }

  /** The PATH search returns the first entry holding a runnable file; when
      none does, the first installation directory that does. */
  lemma PathLookupFindsFirst(host: Host, name: string, i: nat)
    requires host.pathEnv.Some?
    requires i < |Split(host.pathEnv.value, host.pathSeparator)|
    requires var entries := Split(host.pathEnv.value, host.pathSeparator);
      Runnable(host.fs, FileIn(entries[i], name))
      && forall j :: 0 <= j < i ==> !Runnable(host.fs, FileIn(entries[j], name))
    ensures PathLookup(host, name) == SystemPath(FileIn(Split(host.pathEnv.value, host.pathSeparator)[i], name))
  {
  }

  /** With PATH unset, not even an installed driver in a fixed directory is
      found. */
  lemma UnsetPathSkipsInstallDirs(fs: FileSystem, sep: char, name: string)
    requires Runnable(fs, FileIn(CommonInstallDirs[0], name))
    ensures PathLookup(Host(fs, None, sep), name) == NotFound
    ensures PathLookup(Host(fs, Some(""), sep), name).CommonInstall? || PathLookup(Host(fs, Some(""), sep), name).SystemPath?
  {
    assert Split("", sep) == [""];
    if !Runnable(fs, FileIn("", name)) {
      assert FirstRunnable(fs, CommonInstallDirs, name) == Some(0);
    }
  }

  /** The driver the family's property ends up pointing at: the file found
      on disk or in the search, or the one WebDriverManager downloaded. */
  function SetupPath(res: Resolution): (p: Option<string>)
    ensures p.Some? <==> res != NotFound
    ensures res.Downloaded? ==> p == Some(res.path)
    ensures !res.Downloaded? ==> p == FoundPath(res)
  {
    if res.Downloaded? then Some(res.path) else FoundPath(res)
  }

  /** The system properties after setup{Chrome,Firefox,Edge}Driver: the
      driver property points at the driver set up; after a failed search
      the table is as it was. */
  function AfterSetup(res: Resolution, k: DriverKind, m: map<string, string>): map<string, string> {
    if SetupPath(res).Some? then m[k.property := SetupPath(res).value] else m
  }

  /** setup{Chrome,Firefox,Edge}Driver(): points the driver property at the
      file found on disk or in the search; after a download WebDriverManager's
      setup() has pointed it at the downloaded driver. Throws "<name> not
      found" when all fails. */
  method SetupDriver(sys: SystemProperties, cm: ConfigManager, host: Host, probe: ProbeResult,
                     download: DownloadOutcome, k: DriverKind) returns (r: Outcome)
    requires k.property !in ConfigKeys
    modifies sys
    ensures var res := Resolve(host, View(old(sys.props), cm.properties), probe, download, k);
      && (res == NotFound <==> r.Failed?)
      && (r.Failed? ==> r.error == k.displayName + " not found" && sys.props == old(sys.props))
      && sys.props == AfterSetup(res, k, old(sys.props))
    ensures AgreeOnConfig(old(sys.props), sys.props)
  {
    var s := View(sys.props, cm.properties);
    var driverPath := GetDriverPath(host.fs, s, k.executable);
    if driverPath.Some? {
      WriteOutsideConfig(sys.props, k.property, driverPath.value);
      sys.SetProperty(k.property, driverPath.value);
      return Completed;
    }
    if DriverAutoDownload(s) && IsInternetAvailable(probe) {
      if download.DownloadSucceeded? {
        WriteOutsideConfig(sys.props, k.property, download.driverPath);
        sys.SetProperty(k.property, download.driverPath);
        return Completed;
      }
    }
    var systemDriver := FindDriverInPath(host, k.executable);
    if systemDriver.Some? {
      WriteOutsideConfig(sys.props, k.property, systemDriver.value);
      sys.SetProperty(k.property, systemDriver.value);
      r := Completed;
    } else {
      r := Failed(k.displayName + " not found");
    }
  }
}
