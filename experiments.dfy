/**
 * The `Experiment` driver: the fixed site sets, the extension variants and
 * the sequence of batches (`StepSet`s) one run creates.
 */
module Experiments {
  import opened Wrappers
  import opened Platforms
  import opened Trials
  import opened Schedules

  /** `Experiment.SITES`, in the dict's insertion order: three pages per load level. */
  const Sites: seq<SiteSet> := [
    SiteSet("HIGH", [
      "https://www.msn.com/nl-nl",
      "https://apnews.com/article/exercise-recovery-injury-workout-rest-2ffce1799725037b0142657db62d9e8d",
      "https://www.npr.org/2025/02/15/nx-s1-5262600/movie-watch-six-spring-movies-to-get-excited-about"]),
    SiteSet("MEDIUM", [
      "https://www.vice.com/en/article/pga-tour-2k25-is-a-proper-birdie-and-its-so-close-to-being-a-hole-in-one-review/",
      "https://www.nytimes.com/2025/02/19/well/move/zone-2-exercise-benefits.html",
      "https://time.com/7252972/american-murder-gabby-petito-true-story-netflix/"]),
    SiteSet("LOW", [
      "https://www.nasa.gov/image-article/our-pale-blue-dot/",
      "https://www.bellingcat.com/news/2024/12/18/ukraine-outraged-at-yemen-grain-shipment-from-occupied-crimea/",
      "https://commission.europa.eu/topics/agriculture-and-rural-development/future-agriculture_en"])
  ]

  /**
   * `[None] + [extension.get_folder() for extension in extensions]`: the
   * control variant without extensions first, then one variant per extension.
   */
  function Variants(extensionFolders: seq<string>): (r: seq<Option<string>>)
    ensures |r| == |extensionFolders| + 1
    ensures r[0] == None
    ensures forall k :: 0 <= k < |extensionFolders| ==> r[k + 1] == Some(extensionFolders[k])
    decreases |extensionFolders|
  {
    if extensionFolders == [] then [None]
    else
      var rest := Variants(extensionFolders[..|extensionFolders| - 1]);
      rest + [Some(extensionFolders[|extensionFolders| - 1])]
  }

  /** The variants of this experiment: the control and uBlock Origin. */
  function ExperimentVariants(env: Env): (variants: seq<Option<string>>)
    ensures variants == [None, Some(UBlockFolder(env))]
  {
    Variants([UBlockFolder(env)])
  }

  /** The batch with index i that a run over `siteSets` writing into `folder` creates. */
  function ExperimentBatch(siteSets: seq<SiteSet>, env: Env, folder: string, i: int): Batch {
    Batch(i, folder, siteSets, ExperimentVariants(env))
  }

  /**
   * A batch over the control and one extension folder: twice as many trials
   * as site sets, each site set once without extensions (variant 0) and
   * once with the extension (variant 1), each trial with its own report file.
   */
  lemma ControlAndOneExtension(os: OsName, draw: Draw, b: Batch, extensionFolder: string)
    requires b.variants == [None, Some(extensionFolder)]
    ensures var steps := Schedule(draw, b);
      && |steps| == 2 * |b.siteSets|
      && (forall k :: 0 <= k < |steps| ==>
            && steps[k].index == b.index && steps[k].folder == b.folder
            && steps[k].siteSetIndex < |b.siteSets|
            && steps[k].siteSet == b.siteSets[steps[k].siteSetIndex].urls
            && steps[k].extensionFolderIndex < 2
            && (steps[k].extensionFolderIndex == 0 ==> steps[k].extensionFolder == None)
            && (steps[k].extensionFolderIndex == 1 ==> steps[k].extensionFolder == Some(extensionFolder)))
      && (forall s, v :: 0 <= s < |b.siteSets| && 0 <= v < 2 ==> StepFor(b, s, v) in steps)
      && (forall k, k' :: 0 <= k < k' < |steps| ==> ReportFile(os, steps[k]) != ReportFile(os, steps[k']))
  {
    var steps := Schedule(draw, b);
    ScheduleEachPairOnce(draw, b);
    ScheduleReportFilesDistinct(os, draw, b);
    assert |steps| == |b.siteSets| * 2;
    forall k | 0 <= k < |steps|
      ensures steps[k].index == b.index && steps[k].folder == b.folder
      ensures steps[k].siteSetIndex < |b.siteSets|
      ensures steps[k].siteSet == b.siteSets[steps[k].siteSetIndex].urls
      ensures steps[k].extensionFolderIndex < 2
      ensures steps[k].extensionFolderIndex == 0 ==> steps[k].extensionFolder == None
      ensures steps[k].extensionFolderIndex == 1 ==> steps[k].extensionFolder == Some(extensionFolder)
    {
      var step := steps[k];
      assert Carries(b, step);
      assert step == StepFor(b, step.siteSetIndex, step.extensionFolderIndex);
    }
  }

  /**
   * Every batch of this experiment holds six trials: each of the three site
   * sets once without extensions and once with uBlock Origin, in a shuffled
   * order, each trial with its own report file.
   */
  lemma ExperimentBatchTrials(os: OsName, draw: Draw, env: Env, folder: string, i: int)
    ensures var b := ExperimentBatch(Sites, env, folder, i);
      var steps := Schedule(draw, b);
      && |b.siteSets| == 3
      && |steps| == 6
      && (forall k :: 0 <= k < |steps| ==>
            && steps[k].index == i && steps[k].folder == folder
            && steps[k].siteSetIndex < 3
            && steps[k].siteSet == b.siteSets[steps[k].siteSetIndex].urls
            && steps[k].extensionFolderIndex < 2
            && (steps[k].extensionFolderIndex == 0 ==> steps[k].extensionFolder == None)
            && (steps[k].extensionFolderIndex == 1 ==> steps[k].extensionFolder == Some(UBlockFolder(env))))
      && (forall s, v :: 0 <= s < 3 && 0 <= v < 2 ==> StepFor(b, s, v) in steps)
      && (forall k, k' :: 0 <= k < k' < |steps| ==> ReportFile(os, steps[k]) != ReportFile(os, steps[k']))
  {
    var b := ExperimentBatch(Sites, env, folder, i);
    assert |b.siteSets| == 3;
    ControlAndOneExtension(os, draw, b, UBlockFolder(env));
  }

  /**
   * The batch with set index i that a run with `nSets` sets over `siteSets`
   * and `variants` writing into `runFolder` creates, holding that batch's
   * schedule.
   */
  predicate CreatedBatch(s: StepSet, i: int, nSets: int, siteSets: seq<SiteSet>,
                         variants: seq<Option<string>>, runFolder: string, draw: Draw)
  {
    && s.index == i
    && s.nSets == nSets
    && s.Spec() == Batch(i, runFolder, siteSets, variants)
    && s.steps == Schedule(draw, s.Spec())
  }

  /** `sets` are the batches a run creates, the k-th with set index `first + k`. */
  predicate CreatedBatches(sets: seq<StepSet>, first: int, nSets: int, siteSets: seq<SiteSet>,
                           variants: seq<Option<string>>, runFolder: string, draw: Draw)
  {
    forall k :: 0 <= k < |sets| ==> CreatedBatch(sets[k], first + k, nSets, siteSets, variants, runFolder, draw)
  }

  /** Creating the next batch extends the batches created so far. */
  lemma CreatedBatchesAppend(sets: seq<StepSet>, s: StepSet, first: int, nSets: int, siteSets: seq<SiteSet>,
                             variants: seq<Option<string>>, runFolder: string, draw: Draw)
    requires CreatedBatches(sets, first, nSets, siteSets, variants, runFolder, draw)
    requires CreatedBatch(s, first + |sets|, nSets, siteSets, variants, runFolder, draw)
    ensures CreatedBatches(sets + [s], first, nSets, siteSets, variants, runFolder, draw)
  {
    var sets' := sets + [s];
    forall k | 0 <= k < |sets'|
      ensures CreatedBatch(sets'[k], first + k, nSets, siteSets, variants, runFolder, draw)
    {
      if k < |sets| {
        assert sets'[k] == sets[k];
      }
    }
  }

  /** One iteration's `StepSet(i, self.n_sets, folder, self.SITES, extension_folders)`. */
  method NewBatch(i: int, nSets: int, siteSets: seq<SiteSet>, variants: seq<Option<string>>,
                  runFolder: string, draw: Draw) returns (s: StepSet)
    ensures fresh(s) && CreatedBatch(s, i, nSets, siteSets, variants, runFolder, draw)
  {
    s := new StepSet(i, nSets, runFolder, siteSets, variants, draw);
  }

  /**
   * The loop of `Experiment.run`: the batches `first`, `first + 1`, ...,
   * `nSets - 1`, in ascending order (none when `first >= nSets`), each a new
   * `StepSet`.
   */
  method CreateBatches(first: int, nSets: int, siteSets: seq<SiteSet>, variants: seq<Option<string>>,
                       runFolder: string, draw: Draw) returns (sets: seq<StepSet>)
    ensures |sets| == if first < nSets then nSets - first else 0
    ensures forall k :: 0 <= k < |sets| ==> fresh(sets[k])
    ensures CreatedBatches(sets, first, nSets, siteSets, variants, runFolder, draw)
  {
    var count := if nSets - first > 0 then nSets - first else 0;
    sets := [];
    var n := 0;
    while n < count
      invariant 0 <= n <= count
      invariant |sets| == n
      invariant forall k :: 0 <= k < n ==> fresh(sets[k])
      invariant CreatedBatches(sets, first, nSets, siteSets, variants, runFolder, draw)
    {
      var stepSet := NewBatch(first + n, nSets, siteSets, variants, runFolder, draw);
      CreatedBatchesAppend(sets, stepSet, first, nSets, siteSets, variants, runFolder, draw);
      sets := sets + [stepSet];
      n := n + 1;
    }
  }

  /** An `Experiment`: where to write, how many batches, whether to add a warm-up batch and where to resume. */
  class Experiment {
    const sites: seq<SiteSet>
    const folder: string
    var nSets: int
    const addWarmup: bool
    const index: int

    constructor (folder: string, nSets: int, addWarmup: bool, index: int)
      ensures this.folder == folder && this.nSets == nSets
      ensures this.addWarmup == addWarmup && this.index == index
      ensures sites == Sites
    {
      this.sites := Sites;
      this.folder := folder;
      this.nSets := nSets;
      this.addWarmup := addWarmup;
      this.index := index;
    }

    /**
     * `Experiment.run` without the downloads, folder creation and trial
     * execution: the warm-up flag adds one batch, then the batches
     * `index`, `index + 1`, ..., `nSets - 1` are created in ascending order
     * (none when `index >= nSets`) over the control and uBlock Origin, all
     * writing into `folder/timestamp`.
     */
    method Run(env: Env, timestamp: string, draw: Draw) returns (sets: seq<StepSet>)
      modifies this
      ensures nSets == old(nSets) + (if addWarmup then 1 else 0)
      ensures |sets| == if index < nSets then nSets - index else 0
      ensures forall k :: 0 <= k < |sets| ==> fresh(sets[k])
      ensures CreatedBatches(sets, index, nSets, sites, ExperimentVariants(env), Join(env.host.os, folder, timestamp), draw)
    {
      var runFolder := Join(env.host.os, folder, timestamp);
      if addWarmup {
        nSets := nSets + 1;
      }
      var extensionFolders := [None] + [Some(UBlockFolder(env))];
      assert extensionFolders == ExperimentVariants(env);
      sets := CreateBatches(index, nSets, sites, extensionFolders, runFolder, draw);
    }
  }
}
