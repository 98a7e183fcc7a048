/**
 * The dataset materializer: the copy of every image of the annotation file
 * into `output_dir + "images/"`, followed by the copy of the annotation file
 * itself, unless the JSON file is missing or the output directory exists.
 */
module Materialize {
  import opened Coco
  import opened Paths

  /** What one run does: fails its assertion, returns early, or performs these copies in order. */
  datatype MaterializeOutcome =
    | JsonFileMissing
    | OutputExists
    | Copied(copies: seq<CopyJob>)

  const IMAGES_FOLDER := "images"

  /**
   * The copies the materializer makes as written: every image of the
   * snapshot, annotated or not, then the annotation file.
   */
  function MaterializedCopies(jsonFile: string, outputDir: string, data: Dataset): (copies: seq<CopyJob>)
    ensures |copies| == |data.images| + 1
    ensures copies[|data.images|] == CopyJob(jsonFile, outputDir)
    ensures forall i :: 0 <= i < |data.images| ==> copies[i] == ImageCopy(outputDir, IMAGES_FOLDER, data.images[i])
  {
    CopyPlan(outputDir, IMAGES_FOLDER, data.images) + [CopyJob(jsonFile, outputDir)]
  }

  /** The image ids that at least one annotation refers to. */
  function AnnotatedIds(annos: seq<Annotation>): (ids: set<int>)
    ensures forall id :: id in ids <==> exists a :: a in annos && a.imageId == id
  {
    set a | a in annos :: a.imageId
  }

  /** The images that carry at least one annotation, in snapshot order. */
  function ImagesWithAnnotations(images: seq<Image>, ids: set<int>): (r: seq<Image>)
    ensures |r| <= |images|
    ensures forall img :: img in r <==> img in images && img.id in ids
  {
    if images == [] then []
    else
      var rest := ImagesWithAnnotations(images[1..], ids);
      assert forall img :: img in images <==> img == images[0] || img in images[1..];
      if images[0].id in ids then [images[0]] + rest else rest
  }

  /**
   * One reading of the materializer's description, which is inconsistent: its
   * summary says only images with an annotation are copied, while its argument
   * list says the output holds copies of all images. Under the first reading
   * every image copy belongs to an annotated image of the snapshot, every
   * annotated image is copied, and the annotation file comes last. (Another
   * reading is that the exported snapshot already lists only annotated images.)
   */
  function IntendedCopies(jsonFile: string, outputDir: string, data: Dataset): (copies: seq<CopyJob>)
    ensures |copies| >= 1 && copies[|copies| - 1] == CopyJob(jsonFile, outputDir)
    ensures forall k :: 0 <= k < |copies| - 1 ==>
      exists img :: img in data.images && img.id in AnnotatedIds(data.annotations) &&
        copies[k] == ImageCopy(outputDir, IMAGES_FOLDER, img)
    ensures forall img | img in data.images && img.id in AnnotatedIds(data.annotations) ::
      ImageCopy(outputDir, IMAGES_FOLDER, img) in copies[..|copies| - 1]
  {
    var kept := ImagesWithAnnotations(data.images, AnnotatedIds(data.annotations));
    var plan := CopyPlan(outputDir, IMAGES_FOLDER, kept);
    assert (plan + [CopyJob(jsonFile, outputDir)])[..|plan|] == plan;
    forall img | img in kept ensures ImageCopy(outputDir, IMAGES_FOLDER, img) in plan {
      var i :| 0 <= i < |kept| && kept[i] == img;
      assert plan[i] == ImageCopy(outputDir, IMAGES_FOLDER, img);
    }
    forall k | 0 <= k < |plan| ensures kept[k] in data.images && kept[k].id in AnnotatedIds(data.annotations) {
      assert kept[k] in kept;
    }
    plan + [CopyJob(jsonFile, outputDir)]
  }

  /**
   * Where the two readings part: the loop copies every image, so a snapshot
   * with one image and no annotations gets that image copied, where the
   * annotated-only reading copies only the annotation file.
   */
  lemma UnannotatedImageCopied(jsonFile: string, outputDir: string)
    ensures var img := Image(1, "a.jpg", "/a.jpg", map[]);
      var data := Dataset([img], [], []);
      MaterializedCopies(jsonFile, outputDir, data)[0] == ImageCopy(outputDir, IMAGES_FOLDER, img) &&
      img.id !in AnnotatedIds(data.annotations) &&
      IntendedCopies(jsonFile, outputDir, data) == [CopyJob(jsonFile, outputDir)]
  {
    var img := Image(1, "a.jpg", "/a.jpg", map[]);
    var data := Dataset([img], [], []);
    assert ImagesWithAnnotations(data.images, AnnotatedIds(data.annotations)) == [];
  }

  /**
   * The materializer with its file-system checks given as flags: every image
   * is copied from its stored path minus the first character to
   * `output_dir + "images/" + file_name`, in the order of the snapshot, and
   * then the annotation file goes into the output directory.
   */
  method CreateDatasetFromAnnotations(
    jsonFile: string, jsonExists: bool, outputExists: bool, outputDir: string, data: Dataset)
    returns (r: MaterializeOutcome)
    ensures r == JsonFileMissing <==> !jsonExists
    ensures r == OutputExists <==> jsonExists && outputExists
    ensures r.Copied? <==> jsonExists && !outputExists
    ensures r.Copied? ==>
      |r.copies| == |data.images| + 1 &&
      r.copies[|data.images|] == CopyJob(jsonFile, outputDir) &&
      forall i :: 0 <= i < |data.images| ==>
        r.copies[i] == CopyJob(SourcePath(data.images[i].path), outputDir + "images/" + data.images[i].fileName)
    ensures r.Copied? ==> r.copies == MaterializedCopies(jsonFile, outputDir, data)
  {
    if !jsonExists {
      return JsonFileMissing;
    }
    if outputExists {
      return OutputExists;
    }
    var copies := PlanCopies(outputDir, IMAGES_FOLDER, data.images);
    forall i | 0 <= i < |data.images|
      ensures Destination(outputDir, IMAGES_FOLDER, data.images[i].fileName) == outputDir + "images/" + data.images[i].fileName
    {
      assert outputDir + IMAGES_FOLDER + "/" + data.images[i].fileName == outputDir + ("images/" + data.images[i].fileName);
    }
    r := Copied(copies + [CopyJob(jsonFile, outputDir)]);
  }
}
