/**
 * The proportional splitter: size computation, three-way slicing of the
 * shuffled images, the optional collapse of all categories into one, the
 * per-subset annotation filter, and the three output snapshots with the image
 * copies that follow them.
 */
module Split {
  import opened Coco
  import opened Paths

  type Positive = n: nat | n > 0 witness 1

  /**
   * The split fractions `[train, val, test]` as the rationals
   * `train / denom`, `val / denom` and `test / denom`.
   */
  datatype Fractions = Fractions(train: nat, val: nat, test: nat, denom: Positive)

  /**
   * The check `sum(split) == 1`: train and validation together take at most
   * the whole, and test takes exactly what they leave.
   */
  predicate SumsToOne(f: Fractions)
    ensures SumsToOne(f) <==> f.train + f.val <= f.denom && f.test == f.denom - f.train - f.val
  {
    f.train + f.val + f.test == f.denom
  }

  /** `int(x)` of a non-negative rational `num / denom`: the floor. */
  function Truncate(num: nat, denom: Positive): (r: nat)
    ensures r * denom <= num < r * denom + denom
  {
    num / denom
  }

  /** The three subset sizes `num_train`, `num_val`, `num_test`. */
  datatype Sizes = Sizes(train: nat, val: nat, test: nat)

  /** Multiplying both sides by the same positive number keeps a strict order. */
  lemma MulStrict(a: nat, b: nat, d: Positive)
    requires a < b
    ensures a * d < b * d
  {
    assert b * d == a * d + (b - a) * d;
  }

  /** A factor common to both sides of an order can be cancelled. */
  lemma CancelFactor(a: nat, b: nat, d: Positive)
    requires a * d <= b * d
    ensures a <= b
  {
    if a > b {
      MulStrict(b, a, d);
    }
  }

  /** Multiplication distributes over a sum, on either side. */
  lemma Distribute(a: nat, b: nat, d: nat)
    ensures (a + b) * d == a * d + b * d
    ensures d * (a + b) == d * a + d * b
  {
  }

  /** The three shares of `n` add up to `n` whole units. */
  lemma SharesSum(n: nat, f: Fractions)
    requires SumsToOne(f)
    ensures n * f.train + n * f.val + n * f.test == n * f.denom
    ensures n * f.train + n * f.val <= n * f.denom
  {
    Distribute(f.train, f.val, n);
    Distribute(f.train + f.val, f.test, n);
    assert 0 <= n * f.test;
  }

  /** The two floors never exceed the image count, because their fractions sum to at most one. */
  lemma FloorsFit(n: nat, f: Fractions)
    requires SumsToOne(f)
    ensures Truncate(n * f.train, f.denom) + Truncate(n * f.val, f.denom) <= n
  {
    var d := f.denom;
    var t, v := Truncate(n * f.train, d), Truncate(n * f.val, d);
    SharesSum(n, f);
    Distribute(t, v, d);
    CancelFactor(t + v, n, d);
  }

  /** What the train and validation floors leave over lies between the test share and two units above it. */
  lemma RemainderBounds(n: nat, f: Fractions, t: nat, v: nat, rest: nat)
    requires SumsToOne(f)
    requires t * f.denom <= n * f.train < t * f.denom + f.denom
    requires v * f.denom <= n * f.val < v * f.denom + f.denom
    requires rest == n - t - v
    ensures n * f.test <= rest * f.denom < n * f.test + 2 * f.denom
  {
    var d := f.denom;
    Distribute(rest, t + v, d);
    Distribute(t, v, d);
    SharesSum(n, f);
  }

  /**
   * `num_train = int(N * split[0])`, `num_val = int(N * split[1])`, and the
   * test subset takes what is left: `num_test = N - num_train - num_val`.
   */
  function SubsetSizes(n: nat, f: Fractions): (s: Sizes)
    requires SumsToOne(f)
    ensures s.train + s.val + s.test == n
    ensures s.train * f.denom <= n * f.train < s.train * f.denom + f.denom
    ensures s.val * f.denom <= n * f.val < s.val * f.denom + f.denom
    ensures n * f.test <= s.test * f.denom < n * f.test + 2 * f.denom
  {
    var t, v := Truncate(n * f.train, f.denom), Truncate(n * f.val, f.denom);
    FloorsFit(n, f);
    var rest := n - t - v;
    RemainderBounds(n, f, t, v, rest);
    Sizes(t, v, rest)
  }

  /** The three contiguous blocks of the shuffled images: training, validation, test. */
  datatype Blocks = Blocks(train: seq<Image>, val: seq<Image>, test: seq<Image>)

  /**
   * `shuffled[:num_train]`, `shuffled[num_train:num_train+num_val]` and
   * `shuffled[num_train+num_val:num_images]`.
   */
  function Slice(shuffled: seq<Image>, s: Sizes): (b: Blocks)
    requires s.train + s.val + s.test == |shuffled|
    ensures b.train + b.val + b.test == shuffled
    ensures |b.train| == s.train && |b.val| == s.val && |b.test| == s.test
  {
    var n := |shuffled|;
    var b := Blocks(shuffled[..s.train], shuffled[s.train..s.train + s.val], shuffled[s.train + s.val..n]);
    assert b.train + b.val + b.test == shuffled;
    b
  }

  /** The optional `[enabled, label]` collapse of all categories into one. */
  datatype Supercategory = Supercategory(enabled: bool, name: string)

  /** The id of the single category that a collapse leaves. */
  const SUPERCATEGORY_ID := 1

  /** The category `{id: 1, name: <name>, supercategory: "", color: "#df3ccd", metadata: {}}`. */
  function SyntheticCategory(name: string): (c: Category)
    ensures c.id == SUPERCATEGORY_ID && c.name == name
    ensures c.extra.Keys == {"supercategory", "color", "metadata"}
    ensures c.extra["supercategory"] == JString("") && c.extra["color"] == JString("#df3ccd")
    ensures c.extra["metadata"] == JObject(map[])
  {
    Category(SUPERCATEGORY_ID, name,
      map["supercategory" := JString(""), "color" := JString("#df3ccd"), "metadata" := JObject(map[])])
  }

  /** `categ_all`: the synthetic category alone when collapsing, otherwise the input list as it is. */
  function OutputCategories(sc: Supercategory, categories: seq<Category>): (r: seq<Category>)
    ensures sc.enabled ==> |r| == 1 && r[0].id == SUPERCATEGORY_ID && r[0].name == sc.name
    ensures !sc.enabled ==> r == categories
  {
    if sc.enabled then [SyntheticCategory(sc.name)] else categories
  }

  /** The annotations after `anno['category_id'] = 1` has been applied to each of them. */
  function Collapse(annos: seq<Annotation>): (r: seq<Annotation>)
    ensures |r| == |annos|
    ensures forall a | a in r :: a.categoryId == SUPERCATEGORY_ID
    ensures forall i :: 0 <= i < |annos| ==>
      r[i].imageId == annos[i].imageId && r[i].extra == annos[i].extra
  {
    seq(|annos|, i requires 0 <= i < |annos| => annos[i].(categoryId := SUPERCATEGORY_ID))
  }

  /** The loop that overwrites every annotation's category id with 1, in place. */
  method CollapseInPlace(annos: array<Annotation>)
    modifies annos
    ensures annos[..] == Collapse(old(annos[..]))
  {
    for i := 0 to annos.Length
      invariant forall k :: 0 <= k < i ==> annos[k] == old(annos[k]).(categoryId := SUPERCATEGORY_ID)
      invariant forall k :: i <= k < annos.Length ==> annos[k] == old(annos[k])
    {
      annos[i] := annos[i].(categoryId := SUPERCATEGORY_ID);
    }
  }

  /** The annotation list once the collapse step has run (or been skipped). */
  function Rewritten(annos: seq<Annotation>, sc: Supercategory): (r: seq<Annotation>)
    ensures |r| == |annos|
    ensures forall i :: 0 <= i < |annos| ==> r[i].imageId == annos[i].imageId && r[i].extra == annos[i].extra
    ensures sc.enabled ==> forall a | a in r :: a.categoryId == SUPERCATEGORY_ID
    ensures !sc.enabled ==> r == annos
  {
    if sc.enabled then Collapse(annos) else annos
  }

  /** `[anno for anno in annos if anno['image_id'] in ids]`. */
  function KeepForImages(annos: seq<Annotation>, ids: seq<int>): (r: seq<Annotation>)
    ensures |r| <= |annos|
    ensures forall a | a in r :: a in annos && a.imageId in ids
  {
    if annos == [] then []
    else (if annos[0].imageId in ids then [annos[0]] else []) + KeepForImages(annos[1..], ids)
  }

  /** The three output snapshots. */
  datatype Subsets = Subsets(training: Dataset, validation: Dataset, test: Dataset)

  /** The in-memory part of the splitter, for a given shuffle of the images. */
  function SplitData(data: Dataset, shuffled: seq<Image>, f: Fractions, sc: Supercategory): (out: Subsets)
    requires SumsToOne(f)
    requires multiset(shuffled) == multiset(data.images)
    ensures out.training.images + out.validation.images + out.test.images == shuffled
    ensures forall a | a in out.training.annotations :: a.imageId in IdsOf(out.training.images)
    ensures forall a | a in out.validation.annotations :: a.imageId in IdsOf(out.validation.images)
    ensures forall a | a in out.test.annotations :: a.imageId in IdsOf(out.test.images)
    ensures out.training.categories == out.validation.categories == out.test.categories
  {
    assert |shuffled| == |multiset(shuffled)| == |data.images|;
    var blocks := Slice(shuffled, SubsetSizes(|data.images|, f));
    var categories := OutputCategories(sc, data.categories);
    var annos := Rewritten(data.annotations, sc);
    Subsets(
      Dataset(blocks.train, KeepForImages(annos, IdsOf(blocks.train)), categories),
      Dataset(blocks.val, KeepForImages(annos, IdsOf(blocks.val)), categories),
      Dataset(blocks.test, KeepForImages(annos, IdsOf(blocks.test)), categories))
  }

  /** Why the splitter stopped with an assertion. */
  datatype Failure = JsonFileMissing | IncorrectSplit

  /**
   * What one run does: fails an assertion, returns early because the output
   * directory exists, or writes the three snapshots and copies the images.
   */
  datatype SplitOutcome =
    | Failed(failure: Failure)
    | OutputExists
    | Written(subsets: Subsets, copies: seq<CopyJob>)

  const TRAINING_FOLDER := "training"
  const VALIDATION_FOLDER := "validation"
  const TEST_FOLDER := "test"

  /** The copy loops for the three subsets, run one after the other. */
  function SubsetCopies(outputDir: string, out: Subsets): (jobs: seq<CopyJob>)
    ensures var nt, nv := |out.training.images|, |out.validation.images|;
      |jobs| == nt + nv + |out.test.images| &&
      (forall i :: 0 <= i < nt ==> jobs[i] == ImageCopy(outputDir, TRAINING_FOLDER, out.training.images[i])) &&
      (forall i :: 0 <= i < nv ==> jobs[nt + i] == ImageCopy(outputDir, VALIDATION_FOLDER, out.validation.images[i])) &&
      (forall i :: 0 <= i < |out.test.images| ==> jobs[nt + nv + i] == ImageCopy(outputDir, TEST_FOLDER, out.test.images[i]))
  {
    CopyPlan(outputDir, TRAINING_FOLDER, out.training.images) +
    CopyPlan(outputDir, VALIDATION_FOLDER, out.validation.images) +
    CopyPlan(outputDir, TEST_FOLDER, out.test.images)
  }

  /**
   * The whole splitter. Whether the JSON file and the output directory exist
   * are given as flags, and the random sample as `shuffled`.
   */
  function CreateDatasetSplitSpec(
    jsonExists: bool, outputExists: bool, outputDir: string,
    data: Dataset, shuffled: seq<Image>, f: Fractions, sc: Supercategory): (r: SplitOutcome)
    requires multiset(shuffled) == multiset(data.images)
    ensures r.Failed? <==> !jsonExists || !SumsToOne(f)
    ensures r == OutputExists <==> jsonExists && SumsToOne(f) && outputExists
    ensures r.Written? ==> SumsToOne(f) && r.subsets == SplitData(data, shuffled, f, sc) && |r.copies| == |data.images|
  {
    if !jsonExists then Failed(JsonFileMissing)
    else if !SumsToOne(f) then Failed(IncorrectSplit)
    else if outputExists then OutputExists
    else
      var out := SplitData(data, shuffled, f, sc);
      Written(out, SubsetCopies(outputDir, out))
  }

  /**
   * The splitter step by step as the source runs it: the collapse rewrites a
   * mutable annotation list before any filtering, then the three copy loops run.
   */
  method CreateDatasetSplit(
    jsonExists: bool, outputExists: bool, outputDir: string,
    data: Dataset, shuffled: seq<Image>, f: Fractions, sc: Supercategory) returns (r: SplitOutcome)
    requires multiset(shuffled) == multiset(data.images)
    ensures r == CreateDatasetSplitSpec(jsonExists, outputExists, outputDir, data, shuffled, f, sc)
  {
    if !jsonExists {
      return Failed(JsonFileMissing);
    }
    if !SumsToOne(f) {
      return Failed(IncorrectSplit);
    }
    if outputExists {
      return OutputExists;
    }
    assert |shuffled| == |multiset(shuffled)| == |data.images|;
    var sizes := SubsetSizes(|data.images|, f);
    var blocks := Slice(shuffled, sizes);
    var categories := data.categories;
    var annos := data.annotations;
    if sc.enabled {
      categories := [SyntheticCategory(sc.name)];
      var live := new Annotation[|annos|](i requires 0 <= i < |annos| => annos[i]);
      assert live[..] == annos;
      CollapseInPlace(live);
      annos := live[..];
    }
    var training := Dataset(blocks.train, KeepForImages(annos, IdsOf(blocks.train)), categories);
    var validation := Dataset(blocks.val, KeepForImages(annos, IdsOf(blocks.val)), categories);
    var test := Dataset(blocks.test, KeepForImages(annos, IdsOf(blocks.test)), categories);
    var trainCopies := PlanCopies(outputDir, TRAINING_FOLDER, blocks.train);
    var valCopies := PlanCopies(outputDir, VALIDATION_FOLDER, blocks.val);
    var testCopies := PlanCopies(outputDir, TEST_FOLDER, blocks.test);
    r := Written(Subsets(training, validation, test), trainCopies + valCopies + testCopies);
  }
}
