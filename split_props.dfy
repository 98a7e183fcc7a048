/**
 * What the proportional splitter guarantees: the subsets partition the images,
 * the annotation filter is complete and order-preserving, each annotation of a
 * present image lands in exactly one subset when image ids are unique, the
 * category collapse rewrites only `category_id`, and the copies follow the slices.
 */
module SplitProperties {
  import opened Coco
  import opened Paths
  import opened Split

  /** The filter keeps an annotation exactly as often as the input holds it, when its image is listed, and never otherwise. */
  lemma {:induction false} KeepCount(annos: seq<Annotation>, ids: seq<int>, a: Annotation)
    ensures multiset(KeepForImages(annos, ids))[a] == if a.imageId in ids then multiset(annos)[a] else 0
  {
    if annos != [] {
      assert annos == [annos[0]] + annos[1..];
      KeepCount(annos[1..], ids, a);
    }
  }

  /** The filter keeps the input order: filtering a concatenation concatenates the filtered parts. */
  lemma {:induction false} KeepAppend(x: seq<Annotation>, y: seq<Annotation>, ids: seq<int>)
    ensures KeepForImages(x + y, ids) == KeepForImages(x, ids) + KeepForImages(y, ids)
  {
    if x == [] {
      assert x + y == y;
    } else {
      assert (x + y)[1..] == x[1..] + y;
      KeepAppend(x[1..], y, ids);
    }
  }

  /** Collapsing a concatenation collapses each part. */
  lemma CollapseAppend(x: seq<Annotation>, y: seq<Annotation>)
    ensures Collapse(x + y) == Collapse(x) + Collapse(y)
  {
    assert |Collapse(x + y)| == |Collapse(x) + Collapse(y)|;
    forall i | 0 <= i < |x + y| ensures Collapse(x + y)[i] == (Collapse(x) + Collapse(y))[i] {
      if i < |x| {
        assert (x + y)[i] == x[i];
      } else {
        assert (x + y)[i] == y[i - |x|];
      }
    }
  }

  /** Collapsing the categories before filtering gives the same lists as collapsing after it. */
  lemma {:induction false} CollapseThenKeep(annos: seq<Annotation>, ids: seq<int>)
    ensures KeepForImages(Collapse(annos), ids) == Collapse(KeepForImages(annos, ids))
  {
    if annos != [] {
      var c, tail := Collapse(annos), annos[1..];
      var first := annos[0].(categoryId := SUPERCATEGORY_ID);
      assert c[0] == first;
      assert c[1..] == Collapse(tail);
      var head := if annos[0].imageId in ids then [annos[0]] else [];
      var head' := if annos[0].imageId in ids then [first] else [];
      assert Collapse(head) == head';
      calc {
        KeepForImages(c, ids);
        head' + KeepForImages(Collapse(tail), ids);
        { CollapseThenKeep(tail, ids); }
        head' + Collapse(KeepForImages(tail, ids));
        { CollapseAppend(head, KeepForImages(tail, ids)); }
        Collapse(head + KeepForImages(tail, ids));
        Collapse(KeepForImages(annos, ids));
      }
    }
  }

  /**
   * Three blocks that rebuild a rearrangement of the images hold together each
   * image as often as the input does; with unique ids, exactly once.
   */
  lemma BlocksPartitionImages(images: seq<Image>, shuffled: seq<Image>, b: Blocks)
    requires multiset(shuffled) == multiset(images)
    requires b.train + b.val + b.test == shuffled
    ensures multiset(b.train) + multiset(b.val) + multiset(b.test) == multiset(images)
    ensures UniqueIds(images) ==> forall img | img in images ::
      multiset(b.train)[img] + multiset(b.val)[img] + multiset(b.test)[img] == 1
  {
    assert multiset(shuffled) == multiset(b.train + b.val) + multiset(b.test);
    if UniqueIds(images) {
      UniqueIdsDistinctBag(images);
    }
  }

  /** The three image lists split the images: together they hold each image as often as the input does, in the computed sizes. */
  lemma ImagesPartitioned(data: Dataset, shuffled: seq<Image>, f: Fractions, sc: Supercategory)
    requires SumsToOne(f)
    requires multiset(shuffled) == multiset(data.images)
    ensures var out := SplitData(data, shuffled, f, sc);
      multiset(out.training.images) + multiset(out.validation.images) + multiset(out.test.images) == multiset(data.images)
    ensures var out := SplitData(data, shuffled, f, sc);
      var s := SubsetSizes(|data.images|, f);
      |out.training.images| == s.train && |out.validation.images| == s.val && |out.test.images| == s.test
    ensures var out := SplitData(data, shuffled, f, sc);
      UniqueIds(data.images) ==> forall img | img in data.images ::
        multiset(out.training.images)[img] + multiset(out.validation.images)[img] + multiset(out.test.images)[img] == 1
  {
    assert |shuffled| == |multiset(shuffled)| == |data.images|;
    BlocksPartitionImages(data.images, shuffled, Slice(shuffled, SubsetSizes(|data.images|, f)));
  }

  /** Two lists drawn from one bag of distinct-id images share no id. */
  lemma NoSharedId(x: seq<Image>, y: seq<Image>, bag: multiset<Image>)
    requires multiset(x) + multiset(y) <= bag
    requires DistinctIdsIn(bag)
    ensures forall id :: !(id in IdsOf(x) && id in IdsOf(y))
  {
    IdsOfMembership(x);
    IdsOfMembership(y);
    forall p, q | p in x && q in y ensures p.id != q.id {
      assert multiset(x)[p] >= 1 && bag[p] == 1;
      assert multiset(y)[p] == 0;
      assert p in bag && q in bag;
    }
  }

  /**
   * With unique image ids, an id belongs to the input images exactly when it
   * belongs to one of the three blocks, and to no two of them.
   */
  lemma BlockIdsPartition(images: seq<Image>, shuffled: seq<Image>, b: Blocks)
    requires UniqueIds(images)
    requires multiset(shuffled) == multiset(images)
    requires b.train + b.val + b.test == shuffled
    ensures forall id :: id in IdsOf(images) <==> id in IdsOf(b.train) || id in IdsOf(b.val) || id in IdsOf(b.test)
    ensures forall id :: !(id in IdsOf(b.train) && id in IdsOf(b.val))
    ensures forall id :: !(id in IdsOf(b.train) && id in IdsOf(b.test))
    ensures forall id :: !(id in IdsOf(b.val) && id in IdsOf(b.test))
  {
    var bag := multiset(images);
    UniqueIdsDistinctBag(images);
    assert bag == multiset(b.train) + multiset(b.val) + multiset(b.test) by {
      assert multiset(shuffled) == multiset(b.train + b.val) + multiset(b.test);
    }
    NoSharedId(b.train, b.val, bag);
    NoSharedId(b.train, b.test, bag);
    NoSharedId(b.val, b.test, bag);
    IdsOfMembership(images);
    IdsOfMembership(b.train);
    IdsOfMembership(b.val);
    IdsOfMembership(b.test);
    forall id ensures id in IdsOf(images) ==> id in IdsOf(b.train) || id in IdsOf(b.val) || id in IdsOf(b.test) {
      if id in IdsOf(images) {
        var img :| img in images && img.id == id;
        assert img in bag;
      }
    }
    forall id ensures id in IdsOf(b.train) || id in IdsOf(b.val) || id in IdsOf(b.test) ==> id in IdsOf(images) {
      if id in IdsOf(b.train) || id in IdsOf(b.val) || id in IdsOf(b.test) {
        var img :| (img in b.train || img in b.val || img in b.test) && img.id == id;
        assert img in bag;
      }
    }
  }

  /**
   * With unique image ids, filtering one annotation list by the id lists of
   * the three blocks sends each annotation whose image is present to exactly
   * one block, as often as it occurs, and an orphan annotation to none.
   */
  lemma KeepDistributes(images: seq<Image>, shuffled: seq<Image>, b: Blocks, annos: seq<Annotation>, a: Annotation)
    requires UniqueIds(images)
    requires multiset(shuffled) == multiset(images)
    requires b.train + b.val + b.test == shuffled
    ensures multiset(KeepForImages(annos, IdsOf(b.train)))[a] +
            multiset(KeepForImages(annos, IdsOf(b.val)))[a] +
            multiset(KeepForImages(annos, IdsOf(b.test)))[a]
            == if a.imageId in IdsOf(images) then multiset(annos)[a] else 0
  {
    BlockIdsPartition(images, shuffled, b);
    KeepCount(annos, IdsOf(b.train), a);
    KeepCount(annos, IdsOf(b.val), a);
    KeepCount(annos, IdsOf(b.test), a);
  }

  /**
   * With unique image ids, every annotation whose image is present goes to
   * exactly one subset, once for each time it occurs in the input; an
   * annotation whose image is missing goes to none.
   */
  lemma AnnotationsDistributed(data: Dataset, shuffled: seq<Image>, f: Fractions, sc: Supercategory, a: Annotation)
    requires SumsToOne(f)
    requires multiset(shuffled) == multiset(data.images)
    requires UniqueIds(data.images)
    ensures var out := SplitData(data, shuffled, f, sc);
      multiset(out.training.annotations)[a] + multiset(out.validation.annotations)[a] + multiset(out.test.annotations)[a]
      == if a.imageId in IdsOf(data.images) then multiset(Rewritten(data.annotations, sc))[a] else 0
  {
    assert |shuffled| == |multiset(shuffled)| == |data.images|;
    var b := Slice(shuffled, SubsetSizes(|data.images|, f));
    KeepDistributes(data.images, shuffled, b, Rewritten(data.annotations, sc), a);
  }

  /**
   * With the collapse on, every subset lists only the synthetic category, and
   * its annotations are the input annotations of its images, in input order,
   * with `category_id` set to 1 and nothing else changed.
   */
  lemma CollapsedOutput(data: Dataset, shuffled: seq<Image>, f: Fractions, sc: Supercategory)
    requires SumsToOne(f)
    requires multiset(shuffled) == multiset(data.images)
    requires sc.enabled
    ensures var out := SplitData(data, shuffled, f, sc);
      out.training.categories == out.validation.categories == out.test.categories == [SyntheticCategory(sc.name)]
    ensures var out := SplitData(data, shuffled, f, sc);
      forall a | a in out.training.annotations + out.validation.annotations + out.test.annotations ::
        a.categoryId == SUPERCATEGORY_ID
    ensures var out := SplitData(data, shuffled, f, sc);
      out.training.annotations == Collapse(KeepForImages(data.annotations, IdsOf(out.training.images))) &&
      out.validation.annotations == Collapse(KeepForImages(data.annotations, IdsOf(out.validation.images))) &&
      out.test.annotations == Collapse(KeepForImages(data.annotations, IdsOf(out.test.images)))
  {
    var out := SplitData(data, shuffled, f, sc);
    CollapseThenKeep(data.annotations, IdsOf(out.training.images));
    CollapseThenKeep(data.annotations, IdsOf(out.validation.images));
    CollapseThenKeep(data.annotations, IdsOf(out.test.images));
  }

  /** With the collapse off, all three subsets share the input category list and keep the annotations untouched. */
  lemma UncollapsedOutput(data: Dataset, shuffled: seq<Image>, f: Fractions, sc: Supercategory)
    requires SumsToOne(f)
    requires multiset(shuffled) == multiset(data.images)
    requires !sc.enabled
    ensures var out := SplitData(data, shuffled, f, sc);
      out.training.categories == out.validation.categories == out.test.categories == data.categories
    ensures var out := SplitData(data, shuffled, f, sc);
      out.training.annotations == KeepForImages(data.annotations, IdsOf(out.training.images)) &&
      out.validation.annotations == KeepForImages(data.annotations, IdsOf(out.validation.images)) &&
      out.test.annotations == KeepForImages(data.annotations, IdsOf(out.test.images))
  {
  }

  /** The subset folder of the image at position `i` of the shuffled list. */
  function FolderAt(s: Sizes, i: nat): string
  {
    if i < s.train then TRAINING_FOLDER
    else if i < s.train + s.val then VALIDATION_FOLDER
    else TEST_FOLDER
  }

  /**
   * A run that gets past its checks copies every shuffled image once, in
   * shuffled order, into the folder of the block its position falls in.
   */
  lemma CopiesFollowSlices(
    outputDir: string, data: Dataset, shuffled: seq<Image>, f: Fractions, sc: Supercategory)
    requires SumsToOne(f)
    requires multiset(shuffled) == multiset(data.images)
    ensures var r := CreateDatasetSplitSpec(true, false, outputDir, data, shuffled, f, sc);
      var s := SubsetSizes(|data.images|, f);
      r.Written? && |r.copies| == |shuffled| &&
      forall i :: 0 <= i < |shuffled| ==> r.copies[i] == ImageCopy(outputDir, FolderAt(s, i), shuffled[i])
  {
    assert |shuffled| == |multiset(shuffled)| == |data.images|;
    var r := CreateDatasetSplitSpec(true, false, outputDir, data, shuffled, f, sc);
    var s := SubsetSizes(|data.images|, f);
    var out := SplitData(data, shuffled, f, sc);
    var b := Slice(shuffled, s);
    assert out.training.images == b.train && out.validation.images == b.val && out.test.images == b.test;
    forall i | 0 <= i < |shuffled|
      ensures r.copies[i] == ImageCopy(outputDir, FolderAt(s, i), shuffled[i])
    {
      if i < s.train {
        assert r.copies[i] == CopyPlan(outputDir, TRAINING_FOLDER, b.train)[i];
      } else if i < s.train + s.val {
        assert r.copies[i] == CopyPlan(outputDir, VALIDATION_FOLDER, b.val)[i - s.train];
      } else {
        assert r.copies[i] == CopyPlan(outputDir, TEST_FOLDER, b.test)[i - s.train - s.val];
      }
    }
  }

  /**
   * A missing JSON file and a split that does not sum to one stop the run;
   * otherwise an existing output directory makes it do nothing, and only a
   * fresh output directory gets written.
   */
  lemma OutcomeCases(
    jsonExists: bool, outputExists: bool, outputDir: string,
    data: Dataset, shuffled: seq<Image>, f: Fractions, sc: Supercategory)
    requires multiset(shuffled) == multiset(data.images)
    ensures var r := CreateDatasetSplitSpec(jsonExists, outputExists, outputDir, data, shuffled, f, sc);
      (r == Failed(JsonFileMissing) <==> !jsonExists) &&
      (r == Failed(IncorrectSplit) <==> jsonExists && !SumsToOne(f)) &&
      (r == OutputExists <==> jsonExists && SumsToOne(f) && outputExists) &&
      (r.Written? <==> jsonExists && SumsToOne(f) && !outputExists)
  {
  }

  /** With fractions 0.7, 0.15 and 0.15, 100 images split 70/15/15 and 101 images 70/15/16: the remainder goes to test. */
  lemma DefaultSplitSizes()
    ensures SubsetSizes(100, Fractions(70, 15, 15, 100)) == Sizes(70, 15, 15)
    ensures SubsetSizes(101, Fractions(70, 15, 15, 100)) == Sizes(70, 15, 16)
  {
  }
}
