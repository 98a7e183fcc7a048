/**
 * The path strings behind the image copies: where an image is copied from
 * (its stored `path` without the first character) and where it is copied to
 * (`output_dir + folder + "/" + file_name`), and the ordered list of copies a
 * copy loop performs.
 */
module Paths {
  import opened Coco

  /** One file copy, from `src` to `dst`. */
  datatype CopyJob = CopyJob(src: string, dst: string)

  /**
   * The copy source `path[1:]`: the stored path without its leading character.
   * As with a slice, an empty stored path gives an empty source.
   */
  function SourcePath(stored: string): (src: string)
    ensures stored == [] ==> src == []
    ensures stored != [] ==> stored == [stored[0]] + src
  {
    if stored == [] then [] else stored[1..]
  }

  /** The copy destination `output_dir + folder + "/" + file_name`, cut into its three parts. */
  function Destination(outputDir: string, folder: string, fileName: string): (dst: string)
    ensures |dst| == |outputDir| + |folder| + 1 + |fileName|
    ensures dst[..|outputDir|] == outputDir
    ensures dst[|outputDir|..|outputDir| + |folder|] == folder
    ensures dst[|outputDir| + |folder|] == '/'
    ensures dst[|outputDir| + |folder| + 1..] == fileName
  {
    outputDir + folder + "/" + fileName
  }

  /** Within one folder, different file names never share a destination: no copy overwrites another. */
  lemma DestinationInjective(outputDir: string, folder: string, a: string, b: string)
    requires Destination(outputDir, folder, a) == Destination(outputDir, folder, b)
    ensures a == b
  {
  }

  /** The copy of one image into `folder`. */
  function ImageCopy(outputDir: string, folder: string, img: Image): (job: CopyJob)
    ensures img.path == [] ==> job.src == []
    ensures img.path != [] ==> img.path == [img.path[0]] + job.src
    ensures |job.dst| == |outputDir| + |folder| + 1 + |img.fileName|
    ensures job.dst[..|outputDir|] == outputDir && job.dst[|outputDir|..|outputDir| + |folder|] == folder
    ensures job.dst[|outputDir| + |folder|] == '/' && job.dst[|outputDir| + |folder| + 1..] == img.fileName
  {
    CopyJob(SourcePath(img.path), Destination(outputDir, folder, img.fileName))
  }

  /** The copies `for i in images: copy(i['path'][1:], output_dir + folder + "/" + i['file_name'])`, in order. */
  function CopyPlan(outputDir: string, folder: string, images: seq<Image>): (jobs: seq<CopyJob>)
    ensures |jobs| == |images|
    ensures forall i :: 0 <= i < |images| ==> jobs[i] == ImageCopy(outputDir, folder, images[i])
  {
    seq(|images|, i requires 0 <= i < |images| => ImageCopy(outputDir, folder, images[i]))
  }

  /** The plan of a concatenation is the concatenation of the plans: copy loops run one after another compose. */
  lemma CopyPlanAppend(outputDir: string, folder: string, a: seq<Image>, b: seq<Image>)
    ensures CopyPlan(outputDir, folder, a + b) == CopyPlan(outputDir, folder, a) + CopyPlan(outputDir, folder, b)
  {
  }

  /**
   * Every planned copy reads the stored path minus its first character and
   * writes into `folder` under the image's own file name; images with distinct
   * file names get distinct destinations.
   */
  lemma CopyPlanTargets(outputDir: string, folder: string, images: seq<Image>)
    ensures forall i :: 0 <= i < |images| ==>
      var job := CopyPlan(outputDir, folder, images)[i];
      (images[i].path != [] ==> images[i].path == [images[i].path[0]] + job.src) &&
      job.dst[..|outputDir|] == outputDir &&
      job.dst[|outputDir|..|outputDir| + |folder|] == folder &&
      job.dst[|outputDir| + |folder| + 1..] == images[i].fileName
    ensures forall i, j ::
      0 <= i < |images| && 0 <= j < |images| && images[i].fileName != images[j].fileName ==>
        CopyPlan(outputDir, folder, images)[i].dst != CopyPlan(outputDir, folder, images)[j].dst
  {
  }

  /** The copy loop itself: visits the images in order and records each copy it makes. */
  method PlanCopies(outputDir: string, folder: string, images: seq<Image>) returns (jobs: seq<CopyJob>)
    ensures jobs == CopyPlan(outputDir, folder, images)
  {
    jobs := [];
    for i := 0 to |images|
      invariant |jobs| == i
      invariant forall k :: 0 <= k < i ==> jobs[k] == ImageCopy(outputDir, folder, images[k])
    {
      var src := SourcePath(images[i].path);
      var dst := Destination(outputDir, folder, images[i].fileName);
      jobs := jobs + [CopyJob(src, dst)];
    }
  }
}
