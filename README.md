# Browser energy experiment: the deterministic core

The experiment measures how much energy a Chromium browser uses while it
loads news pages, with and without the uBlock Origin ad blocker. One run
(`Experiment.run`) creates a sequence of batches (`StepSet`s). Each batch
crosses three site sets labelled HIGH, MEDIUM and LOW (three pages
each) with two extension variants: the control without extensions and
uBlock Origin. It then shuffles the six trials (`Step`s) with the batch
index as random seed. Every trial launches Chromium under the EnergiBridge
measurement tool. The tool writes the trial's report to
`<set>_<site set>_<variant>.csv` inside the run folder. Before every trial
a short browser launch is meant to regenerate the browser profile. On
Windows that launch passes `--user-data-dir` with the profile folder, so the
folder is deleted and regenerated; its `Preferences` JSON is then patched so
that every installed extension is enabled. On macOS and Linux the launch uses
Chromium's default profile, and the profile folder only alternates between
deleted and recreated empty on successive resets.

This project models that core in Dafny and proves its properties:

- the platform tables: Chromium snapshot name, unpacked folder and executable path;
- the launch arguments built by `Chromium.args`;
- the report naming and the measurement command of a trial;
- the construction and shuffling of a batch's schedule;
- the preference patch;
- the sequence of batches an experiment run creates.

Modules, one per file:

- `Wrappers`: `Option` and `Result`.
- `Strings`: Python's `str()` of integers, `','.join` and a splitting inverse, and substring tests.
- `Platforms`: `platform.system()` and friends as a `Host` value, `os.path.join`, and the three platform tables.
- `Browser`: the `Chromium` helper and its argument builder.
- `Preferences`: `update_preferences` on a decoded JSON document.
- `Trials`: `Step`, its report file and its measurement command.
- `Schedules`: `StepSet`, the row-major cross product and the seeded shuffle.
- `Experiments`: `Experiment.SITES`, the variants and `Experiment.run`.

Inputs from the outside world are parameters of the model:

- The host (`platform.system()`, `platform.architecture()[0]`, `platform.machine()`).
- The data folder (`DATA_FOLDER`) and `os.path.abspath` against the working directory. These form the `Env` value.
- The run timestamp.
- The measurement tool's path.
- The shuffle's choices, a `Draw` function. See "Left out".

## Model

| member | source | states |
|---|---|---|
| Strings.NatToString | main.py:203 | the decimal text of the debugging port: at least one digit, only digits, no leading zero |
| Strings.ParseNatToString | main.py:203 | the port's decimal text reads back as the port |
| Strings.IntToString | main.py:258 | `str()` of an int: a numeral that starts with '-' exactly for negatives |
| Strings.ParseIntToString | main.py:258 | the text of an int is an integer literal that reads back as that int |
| Strings.IntToStringInjective | main.py:258 | different ints have different texts |
| Strings.JoinComma | main.py:198 | the joined text starts with the first name; for comma-free names it contains a comma exactly when two or more names are joined |
| Strings.IsSubstring | main.py:321 | Python's `in` on two strings; its use is stated by `Preferences.Contains` |
| Strings.SplitComma | main.py:198 | splitting at commas gives at least one piece |
| Strings.SplitCommaPiece | main.py:198 | splitting a comma-free piece followed by a comma and a tail gives the piece, then the tail's pieces |
| Strings.SplitJoinComma | main.py:198 | comma-free folder names joined by ',' split back into exactly those names, so the joined extension list loses nothing |
| Platforms.JoinKeepsParts | main.py:176 | `os.path.join(a, b)` starts with a and ends with b, with one platform separator between them unless a is empty or already ends in one |
| Platforms.Join | main.py:176 | `os.path.join` of two components; its properties are stated by `Platforms.JoinKeepsParts` |
| Platforms.SnapshotName | main.py:78-97 | the snapshot name is defined exactly on Windows, macOS and Linux; any other system raises 'Platform not supported' |
| Platforms.SnapshotNameDistinguishesHosts | main.py:78-97 | equal snapshot names mean the same system and, within it, the same 32-bit/64-bit (or arm64/other) class |
| Platforms.ChromiumFolder | main.py:172-182 | the unpacked Chromium folder is defined exactly on the three supported systems; the same table appears at main.py:99-109 |
| Platforms.ChromiumFolderDistinct | main.py:172-182 | different supported systems get different Chromium folders under the same data folder |
| Platforms.JoinAll | main.py:188-192 | `os.path.join(a, *parts)`; its property is stated by `Platforms.JoinAllExtends` |
| Platforms.JoinAllExtends | main.py:190 | joining further components onto a path keeps that path as a prefix |
| Platforms.Executable | main.py:184-194 | the executable path is defined exactly on the three supported systems |
| Platforms.ExecutableInsideChromiumFolder | main.py:184-194 | snapshot name, folder and executable succeed on the same hosts; the executable lies inside the Chromium folder, past a separator |
| Platforms.UBlockFolder | main.py:124-125 | the absolute path of `uBlock0.chromium` in the data folder |
| Browser.DevtoolsUrl | main.py:156-157 | the endpoint URL starts with `http://localhost:` and ends with `/json` |
| Browser.DevtoolsUrlNamesPort | main.py:156-157 | the text between host and `/json` is all digits and reads back as the configured port |
| Browser.DefaultDevtoolsUrl | main.py:151-157 | the endpoint of `Chromium()` is exactly `http://localhost:9222/json` |
| Browser.UserFolder | main.py:159-160 | the absolute path of the profile folder in the data folder |
| Browser.Present | main.py:197 | dropping `None` never lengthens the list |
| Browser.PresentKeepsOrder | main.py:197 | filtering a concatenation is the concatenation of the filtered parts, so order and multiplicity are kept |
| Browser.PresentSingle | main.py:197 | a single `Some(x)` is kept as `[x]`, a single `None` is dropped |
| Browser.PresentMembers | main.py:197 | a folder is in the result exactly when it was given as `Some`, and the result is empty iff every entry was `None` |
| Browser.FixedFlags | main.py:199-208 | the six fixed switches, with the debugging port in the third; their properties are stated by `Browser.FixedFlagsSelectNoExtension` |
| Browser.ExtensionFlags | main.py:211-215 | two flags when some folder is given, one otherwise |
| Browser.LaunchArgs | main.py:196-217 | the argument list exists exactly on supported systems |
| Browser.LaunchArgsLayout | main.py:196-217 | full layout: executable first; then `--load-extension=` and `--disable-extensions-except=` with the comma-joined folders, or `--disable-extensions` alone; then the six fixed flags with the port; then the tab; then `--user-data-dir=` with the profile folder on Windows only; the length follows |
| Browser.FixedFlagsSelectNoExtension | main.py:199-208 | none of the fixed flags is one of the three extension-selection flags the builder inserts (`--load-extension=`, `--disable-extensions-except=`, `--disable-extensions`) |
| Browser.Insert | main.py:212-213 | `list.insert(i, x)` puts x at i and shifts the rest right by one, keeping their order |
| Browser.InsertTwiceAfterHead | main.py:212-213 | inserting the `except` flag and then the `load` flag at index 1 leaves `load` before `except`, right after the executable, with everything else in order behind them |
| Browser.Args | main.py:196-217 | the step-by-step builder (append the profile flag, then insert the extension flags at index 1) yields exactly the layout of `LaunchArgs`, or the platform error |
| Preferences.Contains | main.py:321 | `key in data` succeeds exactly on objects, lists and strings (anything else raises); on an object it is a member test |
| Preferences.EnableEntry | main.py:331 | `settings[key]['state'] = 1` on one entry; its effect is stated by `Preferences.PatchedEffect` and `Preferences.EnableAll` |
| Preferences.EnableAll | main.py:330-331 | on an object every entry becomes an object with `state` 1 and no key is added or removed; a success on anything else (an empty list or string) leaves the settings as they were |
| Preferences.Patched | main.py:316-331 | a successful patch comes from a parsed object, keeps its top-level keys and leaves `extensions.ui` equal to `{developer_mode: true}` |
| Preferences.PatchedSucceedsIff | main.py:316-331 | the patch succeeds exactly on a parsed object whose `extensions` holds a `settings` whose entries are all objects (or an empty list or string); an unparsable file and a missing `extensions` or `settings` each give their own error |
| Preferences.PatchedEffect | main.py:324-331 | after the patch `extensions.ui` is exactly `{developer_mode: true}`; every settings entry has `state` 1 and keeps its other fields; no key is added or removed elsewhere; everything else is unchanged |
| Preferences.EnableAllIdempotent | main.py:330-331 | setting `state` to 1 on entries that already have it changes nothing |
| Preferences.PatchedIdempotent | main.py:316-331 | patching an already patched document leaves it as it is |
| Preferences.EnableEntries | main.py:330-331 | the loop over the settings keys computes exactly `EnableAll` of the settings object |
| Preferences.UpdatePreferences | main.py:311-334 | the imperative patch (structure check, `ui` overwrite, then the loop over settings keys in `EnableEntries`) computes exactly the patch that the lemmas above describe |
| Trials.ReportName | main.py:258 | the report name ends in `.csv` after a non-empty stem |
| Trials.ReportFile | main.py:258 | the report file lies in the step's folder and ends with its report name |
| Trials.ReportNameInjective | main.py:258 | two report names are equal only for equal (set, site set, variant) triples |
| Trials.ReportNameFields | main.py:258 | from a report name the three numerals can be read back at its two underscores, so equal names have equal fields |
| Trials.JoinInjective | main.py:258 | joining one folder with two different file names gives different paths |
| Trials.ReportFileInjective | main.py:258 | two steps in one folder share a report file only when they agree on all three indices |
| Trials.TrialCommand | main.py:258-260 | the measurement command exists exactly on supported systems |
| Trials.TrialRunsItsOwnVariant | main.py:258-260 | the command is the tool, `-o`, the step's report file and `--summary`, followed by the browser launch; the control variant disables extensions and any other variant loads and allows just its own folder |
| Trials.SiteLaunchOpensPage | main.py:267-269 | each per-page launch passes no extension folders, so it carries `--disable-extensions`, and the page is its tab |
| Schedules.Swap | main.py:306 | a swap keeps length and multiset and introduces no duplicate |
| Schedules.ShuffleFrom | main.py:306 | the swaps from a position down to the front keep length and multiset and introduce no duplicate |
| Schedules.Shuffle | main.py:305-306 | the seeded shuffle is a permutation that introduces no duplicate |
| Schedules.Row | main.py:302-303 | the steps the inner loop appends for site set i; stated by `Schedules.RowShape` |
| Schedules.Rows | main.py:301-303 | the steps the outer loop leaves after n site sets; stated by `Schedules.RowsShape`, `Schedules.RowsOrdered` and `Schedules.RowsCover` |
| Schedules.RowShape | main.py:302-303 | the inner loop's first j steps for site set i are the steps for variants 0..j-1, in that order |
| Schedules.RowsShape | main.py:301-303 | the first n rows hold n × |variants| steps, each carrying the site set and variant its indices name, with site-set index below n |
| Schedules.RowsOrdered | main.py:301-303 | the first n rows are in strict row-major order |
| Schedules.RowsCover | main.py:301-303 | the first n rows contain the step for every site set below n with every variant |
| Schedules.RowMajor | main.py:301-303 | the nested loops produce |site sets| × |variants| steps |
| Schedules.RowMajorCrossProduct | main.py:301-303 | before the shuffle: |site sets| × |variants| steps, well formed, in strict row-major order, covering every pair, without duplicates |
| Schedules.Schedule | main.py:301-306 | the shuffled schedule has |site sets| × |variants| steps; the rest is stated by `Schedules.ScheduleEachPairOnce` |
| Schedules.ScheduleEachPairOnce | main.py:301-306 | the shuffled schedule is a permutation of the cross product: |site sets| × |variants| steps, each carrying what its indices name, every pair present, no pair twice |
| Schedules.ScheduleReportFilesDistinct | main.py:301-306 | no two trials of one batch write the same report file |
| Schedules.StepSet.constructor | main.py:292-306 | the nested loops followed by the seeded shuffle leave exactly the batch's schedule in `steps`, with the settings stored as given |
| Experiments.Variants | main.py:429 | the control variant (`None`) first, then one variant per extension folder, in order |
| Experiments.ExperimentVariants | main.py:429 | exactly two variants: the control `None`, then the uBlock Origin folder |
| Experiments.ControlAndOneExtension | main.py:429-434 | a batch over the control and one extension folder has twice as many trials as site sets; each site set appears once without extensions (variant 0) and once with the folder (variant 1); each trial writes its own report file |
| Experiments.ExperimentBatchTrials | main.py:429-434 | each batch of this experiment has six trials: each of the three site sets once as control (variant 0, no extension) and once with uBlock Origin (variant 1), each in its own report file |
| Experiments.Experiment.constructor | main.py:375-405 | stores the folder, set count, warm-up flag and start index; the site sets are the class's `SITES`, the constant `Experiments.Sites`: HIGH, MEDIUM and LOW with their three URLs each, commented-out URLs left out |
| Experiments.CreatedBatchesAppend | main.py:431-434 | a batch created with the next set index extends the batches created so far |
| Experiments.NewBatch | main.py:434 | one iteration's `StepSet(...)`: a new object with the given set index, set count, site sets, variants and run folder, holding its schedule |
| Experiments.CreateBatches | main.py:431-434 | the loop creates batches `first` .. `n_sets - 1` in ascending order (none when `first >= n_sets`), each a new object holding its schedule |
| Experiments.Experiment.Run | main.py:420-434 | the warm-up flag adds one set; batches `index` .. `n_sets - 1` are created in ascending order (none when `index >= n_sets`), each a new object with the bumped set count, the class's site sets, the control and uBlock Origin variants and the run folder `folder/timestamp`, and each holds its schedule |

## Left out

- Downloads and unpacking (`ZipDownloader`, `ChromiumDownloader.run`, `UBlockDownloader.run`, `GhosteryDownloader`), folder creation and deletion (`create_user_folder`, `os.makedirs`): file-system and network I/O. `GhosteryDownloader` is never used by the experiment. With `force` set, `create_user_folder` deletes an existing profile folder and does not recreate it, and creates a missing one. Only on Windows does the following launch use that folder (`--user-data-dir`) and so recreate it; on macOS and Linux successive resets alternately delete and recreate the empty folder.
- `Chromium.dev_data`, `get_last_tab_id`, `close_tab`, `close_all_tabs`: HTTP calls to the debugging endpoint. Only the endpoint URL is modelled. `close_all_tabs` gives up silently at the first tab that fails to close.
- `Step.run`, `StepSet.reset_user_data`, `StepSet.run`: process launching, sleeping, killing and printing. The progress output is left out as well: the realized order printed at the end of `StepSet.__init__` (main.py:308-309), the message of `update_preferences` (main.py:312) and the `Set i/n` line of `Experiment.run`. The commands `Step.run` and `StepSet.reset_user_data` launch are modelled by `Trials.TrialCommand`, `Trials.SiteLaunchOpensPage` and `Browser.LaunchArgs`.
- Schedules.Shuffle: Python's Mersenne Twister is not modelled. The choice made at each position is a `Draw` function of seed, length and position, reduced into the allowed range. So the model proves that the schedule is some permutation fixed by the seed, not which permutation Python produces.
- Schedules.StepSet.constructor: `self.steps` is appended to and then shuffled in place. The model builds the list in a local variable and stores the shuffled list once. The final list is the same, since nothing else reads or changes `steps` during `__init__` and nothing changes it afterwards.
- Preferences.UpdatePreferences: models the document after `json.loads`. The preference file path, the reading and writing, the JSON text and the key order of `json.dump` are not modelled. A file that does not parse is the input `None`.
- Platforms.Join: `os.path.join` is modelled as concatenation with the platform separator. The Windows rules for drive letters and for a second component that is itself absolute are not modelled; no component joined in this program is absolute.
- Platforms.JoinKeepsParts: states the properties of `Platforms.Join`, so it has the same simplification.
- `os.path.abspath` depends on the working directory: it is the function `absPath` of the environment.
- Experiments.Experiment.Run: the timestamp from `datetime.now()` is a parameter. The batches are returned instead of run. `Experiment.run` first runs the Chromium and uBlock Origin downloads (main.py:413-415), and the Chromium download raises on an unsupported host or a failed download before `n_sets` is bumped; the model assumes both downloads succeeded.
- Command-line parsing. As written, `--add-warmup` is declared with `store_true` and default `True`, so the warm-up batch cannot be switched off from the command line. The model takes the flag as a constructor argument.
- The condition `extensions_folders is not None` in `Chromium.args` always holds after the list comprehension, so the `None` branches of lines 198 and 211 are dead. The model leaves them out.
