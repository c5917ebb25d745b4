/**
 * One trial (`Step`): its identity, the report file it is measured into
 * and the measurement command that launches its browser.
 */
module Trials {
  import opened Wrappers
  import opened Strings
  import opened Platforms
  import opened Browser

  /**
   * A `Step`: the batch (set) index, the batch's output folder, the site set
   * and the extension variant it runs, each with its position in the
   * experiment's lists.
   */
  datatype Step = Step(
    index: int,
    folder: string,
    siteSetIndex: nat,
    siteSet: seq<string>,
    extensionFolderIndex: nat,
    extensionFolder: Option<string>)

  /** `f'{index}_{site_set_index}_{extension_folder_index}.csv'`. */
  function ReportName(index: int, siteSetIndex: nat, variantIndex: nat): (name: string)
    ensures |name| > 4 && name[|name| - 4..] == ".csv"
  {
    var stem := IntToString(index) + "_" + IntToString(siteSetIndex) + "_" + IntToString(variantIndex);
    assert (stem + ".csv")[|stem|..] == ".csv";
    stem + ".csv"
  }

  /** The report file of a step: its name inside the batch's output folder. */
  function ReportFile(os: OsName, step: Step): (path: string)
    ensures var name := ReportName(step.index, step.siteSetIndex, step.extensionFolderIndex);
      step.folder <= path && |name| <= |path| && path[|path| - |name|..] == name
  {
    var name := ReportName(step.index, step.siteSetIndex, step.extensionFolderIndex);
    JoinKeepsParts(os, step.folder, name);
    Join(os, step.folder, name)
  }

  /** A numeral contains no '_', so it ends exactly where the first '_' stands. */
  lemma SplitAfterNumeral(x: string, r1: string, y: string, r2: string)
    requires IsNumeral(x) && IsNumeral(y)
    requires x + "_" + r1 == y + "_" + r2
    ensures x == y && r1 == r2
  {
    var s := x + "_" + r1;
    assert s == y + "_" + r2;
    assert forall k :: 0 <= k < |x| ==> s[k] == x[k] != '_';
    assert forall k :: 0 <= k < |y| ==> s[k] == y[k] != '_';
    assert s[|x|] == '_' && s[|y|] == '_';
    assert |x| == |y|;
    assert x == s[..|x|] == y;
    assert r1 == s[|x| + 1..] == r2;
  }

  /** A common suffix can be cut off. */
  lemma DropSuffix(x: string, y: string, suffix: string)
    requires x + suffix == y + suffix
    ensures x == y
  {
    assert x == (x + suffix)[..|x|] && y == (y + suffix)[..|y|];
  }

  /** The three numerals of a report name are read off at its two underscores. */
  lemma ReportNameFields(a: string, b: string, c: string, a': string, b': string, c': string)
    requires IsNumeral(a) && IsNumeral(b) && IsNumeral(a') && IsNumeral(b')
    requires a + "_" + b + "_" + c + ".csv" == a' + "_" + b' + "_" + c' + ".csv"
    ensures a == a' && b == b' && c == c'
  {
    DropSuffix(a + "_" + b + "_" + c, a' + "_" + b' + "_" + c', ".csv");
    assert a + "_" + b + "_" + c == a + "_" + (b + "_" + c);
    assert a' + "_" + b' + "_" + c' == a' + "_" + (b' + "_" + c');
    SplitAfterNumeral(a, b + "_" + c, a', b' + "_" + c');
    SplitAfterNumeral(b, c, b', c');
  }

  /** Distinct (set, site set, variant) triples get distinct report names. */
  lemma ReportNameInjective(a: int, b: nat, c: nat, a': int, b': nat, c': nat)
    requires ReportName(a, b, c) == ReportName(a', b', c')
    ensures a == a' && b == b' && c == c'
  {
    ReportNameFields(IntToString(a), IntToString(b), IntToString(c),
                     IntToString(a'), IntToString(b'), IntToString(c'));
    IntToStringInjective(a, a');
    IntToStringInjective(b, b');
    IntToStringInjective(c, c');
  }

  /** Joining one folder with two different names gives two different paths. */
  lemma JoinInjective(os: OsName, folder: string, n1: string, n2: string)
    requires Join(os, folder, n1) == Join(os, folder, n2)
    ensures n1 == n2
  {
    var p := Join(os, folder, n1);
    var start := if folder == [] || IsSeparator(os, folder[|folder| - 1]) then |folder| else |folder| + 1;
    assert n1 == p[start..] == n2;
  }

  /**
   * Two steps of one batch folder write to the same report file only when
   * they agree on set index, site-set index and variant index.
   */
  lemma ReportFileInjective(os: OsName, s1: Step, s2: Step)
    requires s1.folder == s2.folder
    requires ReportFile(os, s1) == ReportFile(os, s2)
    ensures s1.index == s2.index
    ensures s1.siteSetIndex == s2.siteSetIndex
    ensures s1.extensionFolderIndex == s2.extensionFolderIndex
  {
    JoinInjective(os, s1.folder,
      ReportName(s1.index, s1.siteSetIndex, s1.extensionFolderIndex),
      ReportName(s2.index, s2.siteSetIndex, s2.extensionFolderIndex));
    ReportNameInjective(s1.index, s1.siteSetIndex, s1.extensionFolderIndex,
                        s2.index, s2.siteSetIndex, s2.extensionFolderIndex);
  }

  /**
   * The measurement command of `Step.run`: the measurement tool writing a
   * summary to the step's report file, followed by the browser launch for a
   * new tab with only the step's own extension folder.
   */
  function TrialCommand(c: Chromium, env: Env, tool: string, step: Step): (r: Result<seq<string>, PlatformError>)
    ensures r.Failure? <==> !Supported(env.host.os)
  {
    var launch :- LaunchArgs(c, env, NewTab, [step.extensionFolder]);
    Success([tool, "-o", ReportFile(env.host.os, step), "--summary"] + launch)
  }

  /**
   * A trial is measured into its own report file and runs exactly its own
   * variant: the "no extension" control launches with extensions disabled,
   * any other variant loads and allows only its one folder.
   */
  lemma TrialRunsItsOwnVariant(c: Chromium, env: Env, tool: string, step: Step)
    requires Supported(env.host.os)
    ensures var cmd := TrialCommand(c, env, tool, step).value;
      && |cmd| >= 13
      && cmd[..4] == [tool, "-o", ReportFile(env.host.os, step), "--summary"]
      && cmd[4] == Executable(env.host.os, env.dataFolder).value
      && (step.extensionFolder.None? ==> cmd[5] == "--disable-extensions")
      && (step.extensionFolder.Some? ==>
            cmd[5] == "--load-extension=" + step.extensionFolder.value &&
            cmd[6] == "--disable-extensions-except=" + step.extensionFolder.value)
  {
    var folders := [step.extensionFolder];
    var launch := LaunchArgs(c, env, NewTab, folders).value;
    LaunchArgsLayout(c, env, NewTab, folders);
    if step.extensionFolder.Some? {
      assert Present(folders) == [step.extensionFolder.value] by {
        assert Present(folders[1..]) == [];
      }
    } else {
      assert Present(folders) == [];
    }
    var cmd := TrialCommand(c, env, tool, step).value;
    assert cmd == [tool, "-o", ReportFile(env.host.os, step), "--summary"] + launch;
  }

  /**
   * The launch `Step.run` issues for each page of the site set while the
   * measured browser runs: no extension folders are passed, so the flags
   * ask for extensions to be disabled, and the page is the tab to open.
   */
  lemma SiteLaunchOpensPage(c: Chromium, env: Env, site: string)
    requires Supported(env.host.os)
    ensures var args := LaunchArgs(c, env, site, []).value;
      && |args| == 9 + (if env.host.os == Windows then 1 else 0)
      && args[0] == Executable(env.host.os, env.dataFolder).value
      && args[1] == "--disable-extensions"
      && args[8] == site
  {
    assert Present([]) == [];
    LaunchArgsLayout(c, env, site, []);
  }
}
