/**
 * A batch ("set") of trials: `StepSet.__init__` crosses every site set with
 * every extension variant in row-major order and then shuffles the list
 * with the random generator seeded by the batch index.
 */
module Schedules {
  import opened Wrappers
  import opened Platforms
  import opened Trials

  /** One entry of the `site_sets` dict: its key and its list of URLs. */
  datatype SiteSet = SiteSet(name: string, urls: seq<string>)

  /**
   * What a batch is built from: its index (also the shuffle's seed), its
   * output folder, the site sets and the extension variants.
   */
  datatype Batch = Batch(index: int, folder: string, siteSets: seq<SiteSet>, variants: seq<Option<string>>)

  /**
   * The seeded generator as `random.shuffle` consults it: after
   * `random.seed(seed)`, shuffling a list of length n draws, for each
   * position i from n - 1 down to 1, an index in [0, i] to swap with it.
   * `draw(seed, n, i)` is that index; the generator itself is not modelled.
   */
  type Draw = (int, nat, nat) -> nat

  predicate NoDuplicates<T(==)>(s: seq<T>) {
    forall a, b :: 0 <= a < b < |s| ==> s[a] != s[b]
  }

  /** `x[i], x[j] = x[j], x[i]`. */
  function Swap<T(==)>(s: seq<T>, i: nat, j: nat): (r: seq<T>)
    requires i < |s| && j < |s|
    ensures |r| == |s| && multiset(r) == multiset(s)
    ensures NoDuplicates(s) ==> NoDuplicates(r)
  {
    var r := s[i := s[j]][j := s[i]];
    assert forall k :: 0 <= k < |s| ==> r[k] == s[if k == j then i else if k == i then j else k];
    r
  }

  /** The swaps for positions n - 1 down to 1, each with the drawn partner. */
  function ShuffleFrom<T(==)>(draw: Draw, seed: int, s: seq<T>, n: nat): (r: seq<T>)
    requires n <= |s|
    ensures |r| == |s| && multiset(r) == multiset(s)
    ensures NoDuplicates(s) ==> NoDuplicates(r)
    decreases n
  {
    if n <= 1 then s
    else
      var i := n - 1;
      ShuffleFrom(draw, seed, Swap(s, i, draw(seed, |s|, i) % (i + 1)), i)
  }

  /**
   * `random.seed(seed); random.shuffle(s)`: a permutation of s fixed by the
   * seed, and free of duplicates when s is.
   */
  function Shuffle<T(==)>(draw: Draw, seed: int, s: seq<T>): (r: seq<T>)
    ensures |r| == |s| && multiset(r) == multiset(s)
    ensures NoDuplicates(s) ==> NoDuplicates(r)
  {
    ShuffleFrom(draw, seed, s, |s|)
  }

  /** The step the nested loops create for site set i and variant j. */
  function StepFor(b: Batch, i: nat, j: nat): Step
    requires i < |b.siteSets| && j < |b.variants|
  {
    Step(b.index, b.folder, i, b.siteSets[i].urls, j, b.variants[j])
  }

  /** A step of batch b: it carries the site set and the variant its indices name. */
  predicate Carries(b: Batch, s: Step) {
    && s.siteSetIndex < |b.siteSets|
    && s.extensionFolderIndex < |b.variants|
    && s == StepFor(b, s.siteSetIndex, s.extensionFolderIndex)
  }

  /** The steps for site set i and the first j variants, as the inner loop appends them. */
  function Row(b: Batch, i: nat, j: nat): seq<Step>
    requires i < |b.siteSets| && j <= |b.variants|
  {
    if j == 0 then [] else Row(b, i, j - 1) + [StepFor(b, i, j - 1)]
  }

  /** The steps for the first n site sets, as the outer loop leaves them. */
  function Rows(b: Batch, n: nat): seq<Step>
    requires n <= |b.siteSets|
  {
    if n == 0 then [] else Rows(b, n - 1) + Row(b, n - 1, |b.variants|)
  }

  /** The whole cross product before shuffling. */
  function RowMajor(b: Batch): (steps: seq<Step>)
    ensures |steps| == |b.siteSets| * |b.variants|
  {
    RowsShape(b, |b.siteSets|);
    Rows(b, |b.siteSets|)
  }

  /** The schedule of a batch: the row-major cross product, shuffled with the batch index as seed. */
  function Schedule(draw: Draw, b: Batch): (steps: seq<Step>)
    ensures |steps| == |b.siteSets| * |b.variants|
  {
    Shuffle(draw, b.index, RowMajor(b))
  }

  /** Row-major order: site-set index first, variant index second. */
  predicate Before(s: Step, t: Step) {
    s.siteSetIndex < t.siteSetIndex
    || (s.siteSetIndex == t.siteSetIndex && s.extensionFolderIndex < t.extensionFolderIndex)
  }

  lemma {:induction false} RowShape(b: Batch, i: nat, j: nat)
    requires i < |b.siteSets| && j <= |b.variants|
    ensures |Row(b, i, j)| == j
    ensures forall t :: 0 <= t < j ==> Row(b, i, j)[t] == StepFor(b, i, t)
    decreases j
  {
    if j > 0 {
      RowShape(b, i, j - 1);
    }
  }

  /**
   * The first n rows hold n × |variants| steps; every one carries the site
   * set and variant its indices name, with a site-set index below n.
   */
  lemma {:induction false} RowsShape(b: Batch, n: nat)
    requires n <= |b.siteSets|
    ensures |Rows(b, n)| == n * |b.variants|
    ensures forall k :: 0 <= k < |Rows(b, n)| ==>
      Carries(b, Rows(b, n)[k]) && Rows(b, n)[k].siteSetIndex < n
    decreases n
  {
    if n > 0 {
      var m := |b.variants|;
      RowsShape(b, n - 1);
      RowShape(b, n - 1, m);
      assert (n - 1) * m + m == n * m;
    }
  }

  /** The first n rows are in strict row-major order. */
  lemma {:induction false} RowsOrdered(b: Batch, n: nat)
    requires n <= |b.siteSets|
    ensures forall k, k' :: 0 <= k < k' < |Rows(b, n)| ==> Before(Rows(b, n)[k], Rows(b, n)[k'])
    decreases n
  {
    if n > 0 {
      var m := |b.variants|;
      var prefix, row := Rows(b, n - 1), Row(b, n - 1, m);
      RowsOrdered(b, n - 1);
      RowsShape(b, n - 1);
      RowShape(b, n - 1, m);
      var all := Rows(b, n);
      assert all == prefix + row;
      forall k, k' | 0 <= k < k' < |all|
        ensures Before(all[k], all[k'])
      {
        if k' < |prefix| {
          assert all[k] == prefix[k] && all[k'] == prefix[k'];
        } else if k < |prefix| {
          assert all[k] == prefix[k] && all[k'] == row[k' - |prefix|];
        } else {
          assert all[k] == row[k - |prefix|] && all[k'] == row[k' - |prefix|];
        }
      }
    }
  }

  /** The first n rows contain the step of every site set below n with every variant. */
  lemma {:induction false} RowsCover(b: Batch, n: nat)
    requires n <= |b.siteSets|
    ensures forall i, j :: 0 <= i < n && 0 <= j < |b.variants| ==> StepFor(b, i, j) in Rows(b, n)
    decreases n
  {
    if n > 0 {
      var m := |b.variants|;
      RowsCover(b, n - 1);
      RowShape(b, n - 1, m);
      forall i, j | 0 <= i < n && 0 <= j < m
        ensures StepFor(b, i, j) in Rows(b, n)
      {
        if i < n - 1 {
          assert StepFor(b, i, j) in Rows(b, n - 1);
        } else {
          assert Row(b, n - 1, m)[j] == StepFor(b, i, j);
        }
      }
    }
  }

  /**
   * Before the shuffle: |site_sets| × |variants| steps in row-major order
   * (i outer, j inner), each carrying site_sets[i] and variants[j], each
   * (i, j) pair present and, the order being strict, present once.
   */
  lemma RowMajorCrossProduct(b: Batch)
    ensures var rm := RowMajor(b);
      && |rm| == |b.siteSets| * |b.variants|
      && (forall k :: 0 <= k < |rm| ==> Carries(b, rm[k]))
      && (forall k, k' :: 0 <= k < k' < |rm| ==> Before(rm[k], rm[k']))
      && (forall i, j :: 0 <= i < |b.siteSets| && 0 <= j < |b.variants| ==> StepFor(b, i, j) in rm)
      && NoDuplicates(rm)
  {
    var n := |b.siteSets|;
    RowsShape(b, n);
    RowsOrdered(b, n);
    RowsCover(b, n);
  }

  /**
   * The batch invariant: the shuffled schedule is a permutation of the
   * row-major cross product with |site_sets| × |variants| steps, every step
   * carries the site set and variant its indices name, every (site set,
   * variant) pair occurs, and no pair occurs twice.
   */
  lemma ScheduleEachPairOnce(draw: Draw, b: Batch)
    ensures var steps := Schedule(draw, b);
      && |steps| == |b.siteSets| * |b.variants|
      && multiset(steps) == multiset(RowMajor(b))
      && (forall k :: 0 <= k < |steps| ==> Carries(b, steps[k]))
      && (forall i, j :: 0 <= i < |b.siteSets| && 0 <= j < |b.variants| ==> StepFor(b, i, j) in steps)
      && (forall k, k' :: 0 <= k < k' < |steps| ==>
            (steps[k].siteSetIndex, steps[k].extensionFolderIndex)
            != (steps[k'].siteSetIndex, steps[k'].extensionFolderIndex))
  {
    var rm := RowMajor(b);
    var steps := Schedule(draw, b);
    RowMajorCrossProduct(b);
    forall k | 0 <= k < |steps|
      ensures Carries(b, steps[k])
    {
      assert steps[k] in multiset(rm);
    }
    forall i, j | 0 <= i < |b.siteSets| && 0 <= j < |b.variants|
      ensures StepFor(b, i, j) in steps
    {
      assert StepFor(b, i, j) in multiset(steps);
    }
  }

  /**
   * Every trial of a batch writes its own report file: no two steps of a
   * schedule share a report path.
   */
  lemma ScheduleReportFilesDistinct(os: OsName, draw: Draw, b: Batch)
    ensures var steps := Schedule(draw, b);
      forall k, k' :: 0 <= k < k' < |steps| ==> ReportFile(os, steps[k]) != ReportFile(os, steps[k'])
  {
    var steps := Schedule(draw, b);
    ScheduleEachPairOnce(draw, b);
    forall k, k' | 0 <= k < k' < |steps|
      ensures ReportFile(os, steps[k]) != ReportFile(os, steps[k'])
    {
      if ReportFile(os, steps[k]) == ReportFile(os, steps[k']) {
        ReportFileInjective(os, steps[k], steps[k']);
      }
    }
  }

  /**
   * A `StepSet`: the batch's settings and its list of steps, which the
   * constructor builds and shuffles and nothing changes afterwards.
   */
  class StepSet {
    const index: int
    const nSets: int
    const folder: string
    const siteSets: seq<SiteSet>
    const extensionFolders: seq<Option<string>>
    const steps: seq<Step>

    function Spec(): Batch {
      Batch(index, folder, siteSets, extensionFolders)
    }

    /** `StepSet.__init__`: append every (i, j) step, then shuffle with seed `index`. */
    constructor (index: int, nSets: int, folder: string, siteSets: seq<SiteSet>,
                 extensionFolders: seq<Option<string>>, draw: Draw)
      ensures this.index == index && this.nSets == nSets && this.folder == folder
      ensures this.siteSets == siteSets && this.extensionFolders == extensionFolders
      ensures steps == Schedule(draw, Spec())
    {
      this.index := index;
      this.nSets := nSets;
      this.folder := folder;
      this.siteSets := siteSets;
      this.extensionFolders := extensionFolders;
      var b := Batch(index, folder, siteSets, extensionFolders);
      var built: seq<Step> := [];
      var i := 0;
      while i < |siteSets|
        invariant 0 <= i <= |siteSets|
        invariant built == Rows(b, i)
      {
        var j := 0;
        while j < |extensionFolders|
          invariant 0 <= j <= |extensionFolders|
          invariant built == Rows(b, i) + Row(b, i, j)
        {
          built := built + [Step(index, folder, i, siteSets[i].urls, j, extensionFolders[j])];
          j := j + 1;
        }
        i := i + 1;
      }
      steps := Shuffle(draw, index, built);
    }
  }
}
