/**
 * The platform decision tables of the orchestrator: which Chromium snapshot
 * to download, where it is unpacked and where its executable lives, for the
 * host reported by Python's `platform` module, together with the path
 * joining (`os.path.join`) they are built from.
 */
module Platforms {
  import opened Wrappers

  /**
   * What `platform.system()` reports. `Other` carries any name besides the
   * three supported ones; `Other("Windows")`, `Other("Darwin")` and
   * `Other("Linux")` do not arise, those names being the first three cases.
   */
  datatype OsName = Windows | Darwin | Linux | Other(name: string)

  /** A host: `platform.system()`, `platform.architecture()[0]` and `platform.machine()`. */
  datatype Host = Host(os: OsName, bits: string, machine: string)

  /** The exception raised with 'Platform not supported'. */
  datatype PlatformError = PlatformNotSupported

  /**
   * The ambient configuration the orchestrator reads: the host, the data
   * folder given on the command line, and `os.path.abspath`, which depends
   * on the process's working directory.
   */
  datatype Env = Env(host: Host, dataFolder: string, absPath: string -> string)

  predicate Supported(os: OsName) {
    !os.Other?
  }

  /** The separator `os.path.join` inserts on this system. */
  function Separator(os: OsName): char {
    if os == Windows then '\\' else '/'
  }

  predicate IsSeparator(os: OsName, c: char) {
    c == '/' || (os == Windows && c == '\\')
  }

  /**
   * `os.path.join(a, b)` for a relative component b: a separator is put
   * between the two unless a is empty or already ends with one.
   */
  function Join(os: OsName, a: string, b: string): string {
    if a == [] || IsSeparator(os, a[|a| - 1]) then a + b else a + [Separator(os)] + b
  }

  /**
   * The joined path starts with a and ends with b, and when a does not end
   * in a separator exactly one separator stands between them.
   */
  lemma JoinKeepsParts(os: OsName, a: string, b: string)
    ensures var p := Join(os, a, b);
      && a <= p
      && |p| >= |a| + |b| && p[|p| - |b|..] == b
      && (a != [] && !IsSeparator(os, a[|a| - 1]) ==> |p| == |a| + 1 + |b| && p[|a|] == Separator(os))
  {
  }

  /** `ChromiumDownloader.get_platform`: the name of the snapshot build for this host. */
  function SnapshotName(host: Host): (r: Result<string, PlatformError>)
    ensures r.Failure? <==> !Supported(host.os)
  {
    match host.os
    case Windows => Success(if host.bits == "32bit" then "Win" else "Win_x64")
    case Darwin => Success(if host.machine == "arm64" then "Mac_Arm" else "Mac")
    case Linux => Success(if host.bits == "32bit" then "Linux" else "Linux_x64")
    case Other(_) => Failure(PlatformNotSupported)
  }

  /**
   * Two hosts get the same snapshot only when they run the same system and
   * agree on what the table looks at for it: the word size on Windows and
   * Linux, whether the machine is arm64 on macOS.
   */
  lemma SnapshotNameDistinguishesHosts(h1: Host, h2: Host)
    requires SnapshotName(h1).Success? && SnapshotName(h1) == SnapshotName(h2)
    ensures h1.os == h2.os
    ensures h1.os == Darwin ==> (h1.machine == "arm64" <==> h2.machine == "arm64")
    ensures h1.os != Darwin ==> (h1.bits == "32bit" <==> h2.bits == "32bit")
  {
  }

  /** The name of the folder a snapshot unpacks to. */
  function FolderName(os: OsName): string
    requires Supported(os)
  {
    match os
    case Windows => "chrome-win"
    case Darwin => "chrome-mac"
    case Linux => "chrome-linux"
  }

  /**
   * `Chromium.get_folder` (and its copy `ChromiumDownloader.get_folder`):
   * the unpacked browser folder inside the data folder.
   */
  function ChromiumFolder(os: OsName, dataFolder: string): (r: Result<string, PlatformError>)
    ensures r.Failure? <==> !Supported(os)
  {
    if Supported(os) then Success(Join(os, dataFolder, FolderName(os)))
    else Failure(PlatformNotSupported)
  }

  /** The systems get different browser folders inside one data folder. */
  lemma {:induction false} ChromiumFolderDistinct(os1: OsName, os2: OsName, dataFolder: string)
    requires Supported(os1) && Supported(os2) && os1 != os2
    ensures ChromiumFolder(os1, dataFolder).value != ChromiumFolder(os2, dataFolder).value
  {
    FolderTail(os1, dataFolder);
    FolderTail(os2, dataFolder);
  }

  /**
   * The browser folder ends with the last character of its name, and the
   * three names end differently ('n', 'c', 'x').
   */
  lemma FolderTail(os: OsName, dataFolder: string)
    requires Supported(os)
    ensures var p := ChromiumFolder(os, dataFolder).value;
      |p| >= 1 && p[|p| - 1] == match os case Windows => 'n' case Darwin => 'c' case Linux => 'x'
  {
    var n := FolderName(os);
    JoinKeepsParts(os, dataFolder, n);
  }

  /** The path of the browser binary inside the unpacked folder, one component per entry. */
  function BinaryPath(os: OsName): seq<string>
    requires Supported(os)
  {
    match os
    case Windows => ["chrome.exe"]
    case Darwin => ["Chromium.app", "Contents", "MacOS", "Chromium"]
    case Linux => ["chrome"]
  }

  /** `os.path.join(a, *parts)`. */
  function JoinAll(os: OsName, a: string, parts: seq<string>): string
    decreases |parts|
  {
    if parts == [] then a else JoinAll(os, Join(os, a, parts[0]), parts[1..])
  }

  /** Joining more components keeps what came before as a prefix. */
  lemma {:induction false} JoinAllExtends(os: OsName, a: string, parts: seq<string>)
    ensures a <= JoinAll(os, a, parts)
    decreases |parts|
  {
    if parts != [] {
      JoinKeepsParts(os, a, parts[0]);
      JoinAllExtends(os, Join(os, a, parts[0]), parts[1..]);
    }
  }

  /** `Chromium.get_executable`: the browser binary for this system. */
  function Executable(os: OsName, dataFolder: string): (r: Result<string, PlatformError>)
    ensures r.Failure? <==> !Supported(os)
  {
    if Supported(os) then Success(JoinAll(os, ChromiumFolder(os, dataFolder).value, BinaryPath(os)))
    else Failure(PlatformNotSupported)
  }

  /**
   * The three tables accept exactly the same systems, and the executable lies
   * inside the folder the snapshot is unpacked to, one separator below it.
   */
  lemma {:induction false} ExecutableInsideChromiumFolder(host: Host, dataFolder: string)
    ensures SnapshotName(host).Success? == ChromiumFolder(host.os, dataFolder).Success?
    ensures ChromiumFolder(host.os, dataFolder).Success? == Executable(host.os, dataFolder).Success?
    ensures Supported(host.os) ==>
      ChromiumFolder(host.os, dataFolder).value + [Separator(host.os)] <= Executable(host.os, dataFolder).value
  {
    var os := host.os;
    if Supported(os) {
      var folder := ChromiumFolder(os, dataFolder).value;
      var name := FolderName(os);
      JoinKeepsParts(os, dataFolder, name);
      assert folder[|folder| - 1] == name[|name| - 1];
      var first := Join(os, folder, BinaryPath(os)[0]);
      JoinKeepsParts(os, folder, BinaryPath(os)[0]);
      assert folder + [Separator(os)] <= first;
      JoinAllExtends(os, first, BinaryPath(os)[1..]);
      assert JoinAll(os, folder, BinaryPath(os)) == JoinAll(os, first, BinaryPath(os)[1..]);
    }
  }

  /** `UBlockDownloader.get_folder`: the absolute path of the unpacked uBlock extension. */
  function UBlockFolder(env: Env): string {
    env.absPath(Join(env.host.os, env.dataFolder, "uBlock0.chromium"))
  }
}
