/**
 * The `Chromium` helper: its fixed settings, the debugging endpoint URL and
 * the launch-argument builder `Chromium.args`.
 */
module Browser {
  import opened Wrappers
  import opened Strings
  import opened Platforms

  /** The fields of a `Chromium` object; nothing changes them after construction. */
  datatype Chromium = Chromium(userFolderName: string, remoteDebuggingPort: nat)

  /** What `Chromium()` sets up. */
  const DefaultChromium := Chromium("chromium-user-data", 9222)

  /** The tab every trial's browser opens first. */
  const NewTab := "chrome://newtab"

  const DevtoolsHost := "http://localhost:"

  /** `Chromium.devtools_url`: the page list of the remote-debugging endpoint. */
  function DevtoolsUrl(c: Chromium): (url: string)
    ensures DevtoolsHost <= url
    ensures |url| > |DevtoolsHost| + 5 && url[|url| - 5..] == "/json"
  {
    DevtoolsHost + NatToString(c.remoteDebuggingPort) + "/json"
  }

  /** The port can be read back from the URL: it addresses exactly the configured endpoint. */
  lemma DevtoolsUrlNamesPort(c: Chromium)
    ensures var url := DevtoolsUrl(c);
      AllDigits(url[|DevtoolsHost|..|url| - 5]) && ParseNat(url[|DevtoolsHost|..|url| - 5]) == c.remoteDebuggingPort
  {
    var url := DevtoolsUrl(c);
    assert url[|DevtoolsHost|..|url| - 5] == NatToString(c.remoteDebuggingPort);
    ParseNatToString(c.remoteDebuggingPort);
  }

  /** The endpoint of `Chromium()`, whose port is 9222. */
  lemma DefaultDevtoolsUrl()
    ensures DevtoolsUrl(DefaultChromium) == "http://localhost:9222/json"
  {
    assert NatToString(9222) == "9222" by {
      assert NatToString(9) == "9";
      assert NatToString(92) == "92";
      assert NatToString(922) == "922";
    }
  }

  /** `Chromium.get_user_folder`: the absolute path of the profile folder inside the data folder. */
  function UserFolder(c: Chromium, env: Env): string {
    env.absPath(Join(env.host.os, env.dataFolder, c.userFolderName))
  }

  /** `[folder for folder in folders if folder is not None]`. */
  function Present(folders: seq<Option<string>>): (r: seq<string>)
    ensures |r| <= |folders|
    decreases |folders|
  {
    if folders == [] then [] else Kept(folders[0]) + Present(folders[1..])
  }

  /** What filtering keeps of one entry: its folder, or nothing for `None`. */
  function Kept(entry: Option<string>): seq<string> {
    if entry.Some? then [entry.value] else []
  }

  /**
   * Filtering keeps order and multiplicity: it distributes over
   * concatenation. With PresentSingle this determines `Present` on every
   * list.
   */
  lemma {:induction false} PresentKeepsOrder(a: seq<Option<string>>, b: seq<Option<string>>)
    ensures Present(a + b) == Present(a) + Present(b)
    decreases |a|
  {
    if a == [] {
      assert a + b == b;
    } else {
      PresentKeepsOrder(a[1..], b);
      assert (a + b)[1..] == a[1..] + b;
      assert (a + b)[0] == a[0];
      calc {
        Present(a + b);
        Kept(a[0]) + Present(a[1..] + b);
        Kept(a[0]) + (Present(a[1..]) + Present(b));
        (Kept(a[0]) + Present(a[1..])) + Present(b);
        Present(a) + Present(b);
      }
    }
  }

  /** A single entry keeps its folder, or nothing when it is `None`. */
  lemma PresentSingle(entry: Option<string>)
    ensures Present([entry]) == Kept(entry)
  {
    assert [entry][1..] == [];
  }

  /**
   * Filtering keeps exactly the folders of the `Some` entries, and leaves
   * nothing exactly when every entry is `None`.
   */
  lemma {:induction false} PresentMembers(folders: seq<Option<string>>)
    ensures forall x :: x in Present(folders) <==> Some(x) in folders
    ensures Present(folders) == [] <==> forall k :: 0 <= k < |folders| ==> folders[k] == None
    decreases |folders|
  {
    if folders != [] {
      var rest := folders[1..];
      PresentMembers(rest);
      assert forall k :: 1 <= k < |folders| ==> folders[k] == rest[k - 1];
      assert forall x :: Some(x) in folders <==> Some(x) == folders[0] || Some(x) in rest;
    }
  }

  /** The flags passed in every launch, between the extension flags and the tab. */
  function FixedFlags(c: Chromium): seq<string> {
    [ "--disable-background-networking",
      "--disable-background-timer-throttling",
      "--remote-debugging-port=" + NatToString(c.remoteDebuggingPort),
      "--no-first-run",
      "--disable-component-extensions-with-background-pages",
      "--disable-default-apps" ]
  }

  /**
   * One of the three extension-selection flags the builder inserts
   * (`--load-extension=`, `--disable-extensions-except=`, `--disable-extensions`).
   */
  predicate IsExtensionSelectionFlag(f: string) {
    "--load-extension=" <= f || "--disable-extensions-except=" <= f || f == "--disable-extensions"
  }

  /**
   * The extension flags: load and allow exactly the given folders, joined by
   * commas, or disable all extensions when no folder is given.
   */
  function ExtensionFlags(folders: seq<Option<string>>): (flags: seq<string>)
    ensures |flags| == if Present(folders) == [] then 1 else 2
  {
    var present := Present(folders);
    if present != [] then
      ["--load-extension=" + JoinComma(present), "--disable-extensions-except=" + JoinComma(present)]
    else ["--disable-extensions"]
  }

  /**
   * The argument list a launch uses, as a layout: the executable, the
   * extension flags, the fixed flags, the tab, and on Windows the profile
   * folder.
   */
  function LaunchArgs(c: Chromium, env: Env, tabUrl: string, folders: seq<Option<string>>)
    : (r: Result<seq<string>, PlatformError>)
    ensures r.Failure? <==> !Supported(env.host.os)
  {
    var exe := Executable(env.host.os, env.dataFolder);
    if exe.Failure? then Failure(exe.error)
    else
      var userData := if env.host.os == Windows then ["--user-data-dir=" + UserFolder(c, env)] else [];
      Success([exe.value] + ExtensionFlags(folders) + FixedFlags(c) + [tabUrl] + userData)
  }

  /**
   * What the launch arguments promise: element 0 is the executable; the
   * extension flags sit at index 1 (and 2), carrying the non-None folders
   * joined by commas, or `--disable-extensions` alone when there are none;
   * the six fixed flags follow (none of which is an extension-selection flag, see
   * FixedFlagsSelectNoExtension); then the tab; the
   * last element is the profile folder flag on Windows and the tab elsewhere;
   * the length is 8, plus 2 or 1, plus 1 on Windows.
   */
  lemma LaunchArgsLayout(c: Chromium, env: Env, tabUrl: string, folders: seq<Option<string>>)
    requires Supported(env.host.os)
    ensures var args := LaunchArgs(c, env, tabUrl, folders).value;
      var present := Present(folders);
      var e := if present == [] then 1 else 2;
      && |args| == 8 + e + (if env.host.os == Windows then 1 else 0)
      && args[0] == Executable(env.host.os, env.dataFolder).value
      && (present != [] ==>
            args[1] == "--load-extension=" + JoinComma(present) &&
            args[2] == "--disable-extensions-except=" + JoinComma(present))
      && (present == [] ==> args[1] == "--disable-extensions")
      && args[1 + e..7 + e] == FixedFlags(c)
      && args[7 + e] == tabUrl
      && args[|args| - 1] == (if env.host.os == Windows then "--user-data-dir=" + UserFolder(c, env) else tabUrl)
  {
    var exe := Executable(env.host.os, env.dataFolder).value;
    var userData := if env.host.os == Windows then ["--user-data-dir=" + UserFolder(c, env)] else [];
    var flags := ExtensionFlags(folders);
    var args := [exe] + flags + FixedFlags(c) + [tabUrl] + userData;
    assert LaunchArgs(c, env, tabUrl, folders).value == args;
    Layout(exe, flags, FixedFlags(c), tabUrl, userData);
    assert args[1] == flags[0];
    if Present(folders) != [] {
      assert args[2] == flags[1];
    }
  }

  /** Where each part of `[exe] + flags + fixed + [tabUrl] + userData` sits. */
  lemma Layout(exe: string, flags: seq<string>, fixed: seq<string>, tabUrl: string, userData: seq<string>)
    requires |fixed| == 6 && |userData| <= 1
    ensures var args := [exe] + flags + fixed + [tabUrl] + userData;
      var e := |flags|;
      && |args| == 8 + e + |userData|
      && args[0] == exe
      && (forall t :: 0 <= t < e ==> args[1 + t] == flags[t])
      && args[1 + e..7 + e] == fixed
      && args[7 + e] == tabUrl
      && args[|args| - 1] == (if userData == [] then tabUrl else userData[0])
  {
    var args := [exe] + flags + fixed + [tabUrl] + userData;
    var head := [exe] + flags;
    var rest := [tabUrl] + userData;
    assert args == head + fixed + rest;
    assert args[1 + |flags|..7 + |flags|] == fixed;
    assert args[7 + |flags|] == rest[0];
    assert args[|args| - 1] == rest[|rest| - 1];
  }

  /** A flag that differs from every extension flag in its third or eleventh character. */
  predicate DiffersFromExtensionFlags(f: string) {
    |f| > 10 && f[2] != 'l' && (f[2] != 'd' || f[10] != 'e')
  }

  lemma FixedFlagsSelectNoExtension(c: Chromium)
    ensures forall f :: f in FixedFlags(c) ==> !IsExtensionSelectionFlag(f)
  {
    var fixed := FixedFlags(c);
    forall k | 0 <= k < |fixed| ensures DiffersFromExtensionFlags(fixed[k]) && !IsExtensionSelectionFlag(fixed[k]) {
      var f := fixed[k];
      assert DiffersFromExtensionFlags(f);
      assert !("--load-extension=" <= f) by { assert "--load-extension="[2] == 'l'; }
      assert !("--disable-extensions-except=" <= f) by { assert "--disable-extensions-except="[10] == 'e'; }
      assert f != "--disable-extensions" by { assert "--disable-extensions"[10] == 'e'; }
    }
  }

  /** Python's `list.insert(i, x)`. */
  function Insert(s: seq<string>, i: nat, x: string): (r: seq<string>)
    requires i <= |s|
    ensures |r| == |s| + 1 && r[i] == x && r[..i] == s[..i] && r[i + 1..] == s[i..]
  {
    s[..i] + [x] + s[i..]
  }

  /** Inserting at index 1 puts the new element right after the executable. */
  lemma InsertAfterHead(exe: string, fixed: seq<string>, tabUrl: string, userData: seq<string>, x: string)
    ensures Insert([exe] + fixed + [tabUrl] + userData, 1, x) == [exe] + [x] + fixed + [tabUrl] + userData
  {
    var s := [exe] + fixed + [tabUrl] + userData;
    assert s[..1] == [exe];
    assert s[1..] == fixed + [tabUrl] + userData;
  }

  /** Inserting x and then y at index 1 leaves y before x, right after the executable. */
  lemma InsertTwiceAfterHead(exe: string, fixed: seq<string>, tabUrl: string, userData: seq<string>, x: string, y: string)
    ensures Insert(Insert([exe] + fixed + [tabUrl] + userData, 1, x), 1, y)
         == [exe] + [y, x] + fixed + [tabUrl] + userData
  {
    InsertAfterHead(exe, fixed, tabUrl, userData, x);
    var s := [exe] + [x] + fixed + [tabUrl] + userData;
    assert s[..1] == [exe];
    assert s[1..] == [x] + fixed + [tabUrl] + userData;
  }

  /**
   * `Chromium.args`: builds the list in the source's order (append the
   * profile flag on Windows, then insert the extension flags at index 1)
   * and yields exactly the layout above, or the platform error.
   */
  method Args(c: Chromium, env: Env, tabUrl: string, folders: seq<Option<string>>)
    returns (r: Result<seq<string>, PlatformError>)
    ensures r == LaunchArgs(c, env, tabUrl, folders)
  {
    var present := Present(folders);
    var joined := JoinComma(present);
    var exe := Executable(env.host.os, env.dataFolder);
    if exe.Failure? {
      return Failure(exe.error);
    }
    var fixed := FixedFlags(c);
    var arguments := [exe.value] + fixed + [tabUrl];
    var userData: seq<string> := [];
    if env.host.os == Windows {
      userData := ["--user-data-dir=" + UserFolder(c, env)];
      arguments := arguments + userData;
    } else {
      assert arguments == arguments + userData;
    }
    if present != [] {
      var except := "--disable-extensions-except=" + joined;
      var load := "--load-extension=" + joined;
      arguments := Insert(arguments, 1, except);
      arguments := Insert(arguments, 1, load);
      InsertTwiceAfterHead(exe.value, fixed, tabUrl, userData, except, load);
    } else {
      arguments := Insert(arguments, 1, "--disable-extensions");
      InsertAfterHead(exe.value, fixed, tabUrl, userData, "--disable-extensions");
    }
    return Success(arguments);
  }
}
