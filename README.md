# COCO dataset splitter, modelled in Dafny

This project models the in-memory core of the dataset utilities for COCO
annotation exports in `utils/coco_annotator_utils.py`.

The main piece is the proportional splitter, `create_dataset_split`. It reads a
snapshot `{images, annotations, categories}` and computes three subset sizes
from the split fractions. The test subset takes the rounding remainder. It
slices a shuffled copy of the images into training, validation and test blocks.
Optionally it collapses all categories into one synthetic category with id 1.
It filters the annotations into each subset by `image_id`. Finally it builds the
three output snapshots and copies every image into its subset's folder.

The copy step of the materializer, `create_dataset_from_annotations`, is
modelled as well, together with its early returns.

Files:

- `coco.dfy` (module `Coco`): the image, annotation, category and snapshot
  records; the list of image ids; unique image ids.
- `paths.dfy` (module `Paths`): the copy source (the stored `path` without its
  first character); the copy destination (`output_dir + folder + "/" +
  file_name`); the copy loop as a method that returns the copies it makes, in
  order.
- `split.dfy` (module `Split`): subset sizes, slicing, the category collapse,
  the annotation filter, the output snapshots, and the whole splitter. The
  splitter is written both as a specification function and as a step-by-step
  method. The method rewrites the annotation list in place, in an array.
- `split_props.dfy` (module `SplitProperties`): the properties of the
  splitter.
- `materialize.dfy` (module `Materialize`): the materializer's copies and its
  early returns.

How the model treats the program's inputs:

- The split is modelled as a list of exactly three fractions, given as
  non-negative rationals over one positive denominator. `int(N * fraction)` is the floor of a non-negative rational.
  The check `sum(split) == 1` means the numerators add up to the denominator.
- `rd.sample(images, N)` becomes the parameter `shuffled`. The requires clause
  says its bag of images equals the input's bag.
- Whether the JSON file exists and whether the output directory exists are
  boolean parameters. A missing JSON file or a bad split is an assertion
  failure (`Failed`). An existing output directory makes the run do nothing
  (`OutputExists`).
- A copy is a `CopyJob(src, dst)` value. A run returns the list of copies it
  would make, in the order the copy loops run.
- Seven fields are typed. An image's `id`, `file_name` and `path` and an
  annotation's `image_id` are read by the code. An annotation's `category_id`
  is written by the collapse. A category's `id` and `name` pass through unread,
  but are typed too: `id` is an integer and `name` a string. All remaining
  fields pass through as JSON values, and numbers keep their literal text. The
  `extra` map of a record is meant to hold only these remaining fields, never a
  key the record already types.

The code joins `output_dir` and the subset name with no separator
(`"%straining" % output_dir`, `output_dir + "training/" + ...`). The model
uses the same plain concatenation, so `output_dir` is expected to end with `/`.

## Model

| member | source | states |
|---|---|---|
| Coco.IdsOf | utils/coco_annotator_utils.py:88-92 | the id list has one entry per image, in image order, and entry `i` is image `i`'s id |
| Coco.IdsOfMembership | utils/coco_annotator_utils.py:88 | an id is in the id list of a list of images exactly when some image of the list carries it |
| Paths.SourcePath | utils/coco_annotator_utils.py:138 | the copy source is the stored path without its first character; an empty path gives an empty source |
| Paths.Destination | utils/coco_annotator_utils.py:139 | the destination is the output directory, then the folder name, then `/`, then the file name, and each part can be read back from it |
| Paths.ImageCopy | utils/coco_annotator_utils.py:138-140 | one image's copy reads its stored path minus the first character and writes to the output directory, then the folder, then `/`, then the file name |
| Paths.CopyPlan | utils/coco_annotator_utils.py:137-148 | a copy loop makes exactly one copy per image, and copy `i` is the copy of image `i` |
| Paths.DestinationInjective | utils/coco_annotator_utils.py:137-148 | within one folder, two different file names never get the same destination |
| Paths.CopyPlanAppend | utils/coco_annotator_utils.py:137-148 | the copies of consecutive loops are the concatenation of each loop's copies |
| Paths.CopyPlanTargets | utils/coco_annotator_utils.py:137-148 | each copy reads the image's path minus its first character and writes into the folder under the image's file name; distinct file names give distinct destinations |
| Paths.PlanCopies | utils/coco_annotator_utils.py:137-140 | the copy loop makes one copy per image, in image order, from the stripped path to the folder destination |
| Split.SumsToOne | utils/coco_annotator_utils.py:60 | the split passes its check exactly when train and validation take at most the whole and test takes exactly what they leave |
| Split.Truncate | utils/coco_annotator_utils.py:81-82 | `int()` of a non-negative fraction is its floor: the largest whole number whose product with the denominator does not exceed the numerator |
| Split.FloorsFit | utils/coco_annotator_utils.py:81-83 | when the fractions sum to one, the train and validation floors together never exceed the image count |
| Split.SubsetSizes | utils/coco_annotator_utils.py:79-83 | the three sizes add up to the image count; train and validation are the floors of their shares; test gets at least its own share and less than two images above it, because it takes the rounding remainder |
| SplitProperties.DefaultSplitSizes | utils/coco_annotator_utils.py:79-83 | with fractions 0.7/0.15/0.15, 100 images split 70/15/15 and 101 images split 70/15/16 |
| Split.Slice | utils/coco_annotator_utils.py:86-92 | the train, validation and test blocks have the computed lengths and, concatenated in that order, rebuild the shuffled list exactly |
| Split.SyntheticCategory | utils/coco_annotator_utils.py:96 | the synthetic category has id 1, the given name, an empty `supercategory`, colour `#df3ccd` and empty `metadata`, and no other fields |
| Split.Rewritten | utils/coco_annotator_utils.py:94-99 | the annotation list keeps its length and each annotation's image id and other fields; with the collapse on every category id is 1, and with it off the list is unchanged |
| Split.OutputCategories | utils/coco_annotator_utils.py:94-102 | with the collapse on, the category list is one category with id 1 named by the given label; with it off, the input list unchanged |
| Split.Collapse | utils/coco_annotator_utils.py:98-99 | after the rewrite every annotation has category id 1, and each keeps its image id and all other fields |
| Split.CollapseInPlace | utils/coco_annotator_utils.py:98-99 | the in-place loop leaves the array holding exactly the collapsed annotations |
| Split.KeepForImages | utils/coco_annotator_utils.py:104-106 | the filter keeps only input annotations whose image id is in the given id list |
| Split.SplitData | utils/coco_annotator_utils.py:79-126 | the three image lists concatenate to the shuffled list, every kept annotation refers to an image of its own subset, and all three subsets share one category list |
| Split.SubsetCopies | utils/coco_annotator_utils.py:137-148 | the copies are the training images' copies into `training`, then the validation images' into `validation`, then the test images' into `test`, one per image |
| Split.CreateDatasetSplitSpec | utils/coco_annotator_utils.py:44-148 | the run fails exactly when the JSON file is missing or the split does not sum to one; it does nothing exactly when it passes both and the output directory exists; when it writes, the subsets are `Split.SplitData` of the shuffle and there is one copy per input image. Its order of checks is `SplitProperties.OutcomeCases` and its copies' folders are `SplitProperties.CopiesFollowSlices` |
| Split.CreateDatasetSplit | utils/coco_annotator_utils.py:44-148 | the step-by-step run, with the collapse done in place before filtering, produces the specified outcome: assertion failure, early return, or the three snapshots and their copies |
| SplitProperties.KeepCount | utils/coco_annotator_utils.py:104-106 | the filter is complete: it keeps an annotation as many times as the input holds it when its image id is listed, and drops it otherwise |
| SplitProperties.KeepAppend | utils/coco_annotator_utils.py:104-106 | the filter keeps input order: filtering a concatenation concatenates the filtered parts |
| SplitProperties.CollapseThenKeep | utils/coco_annotator_utils.py:94-106 | rewriting the categories before filtering gives the same subset annotations as rewriting after it |
| SplitProperties.BlocksPartitionImages | utils/coco_annotator_utils.py:86-92 | three blocks that rebuild a rearrangement of the images hold each image as often as the input does; with unique ids, exactly once |
| SplitProperties.ImagesPartitioned | utils/coco_annotator_utils.py:86-92 | the three image lists together hold every input image as often as the input does, with the computed sizes; with unique ids each image is in exactly one subset |
| SplitProperties.BlockIdsPartition | utils/coco_annotator_utils.py:86-92 | with unique image ids, an id is in the input exactly when it is in one of the three blocks' id lists, and no id is in two of them |
| SplitProperties.KeepDistributes | utils/coco_annotator_utils.py:104-106 | with unique image ids, filtering by the three blocks' id lists sends each annotation of a present image to exactly one block, as often as it occurs, and an orphan to none |
| SplitProperties.AnnotationsDistributed | utils/coco_annotator_utils.py:104-106 | with unique image ids, each annotation whose image is present lands in exactly one subset, as often as it occurs in the input; an orphan annotation lands in none |
| SplitProperties.CollapsedOutput | utils/coco_annotator_utils.py:94-126 | with the collapse on, all three subsets list only the synthetic category, every output annotation has category id 1, and each subset's annotations are its images' input annotations with only the category id changed |
| SplitProperties.UncollapsedOutput | utils/coco_annotator_utils.py:100-126 | with the collapse off, all three subsets share the input category list and keep their images' annotations unchanged |
| SplitProperties.CopiesFollowSlices | utils/coco_annotator_utils.py:137-148 | a run that passes its checks copies every shuffled image once, in shuffled order, into the folder of the block its position falls in |
| SplitProperties.OutcomeCases | utils/coco_annotator_utils.py:58-73 | a missing JSON file fails, then a split not summing to one fails, then an existing output directory gives a no-op, and only otherwise is anything written |
| Materialize.MaterializedCopies | utils/coco_annotator_utils.py:35-41 | the materializer copies every image of the snapshot, in order, into `images`, and then the annotation file |
| Materialize.AnnotatedIds | utils/coco_annotator_utils.py:15 | an id is annotated exactly when some annotation refers to it |
| Materialize.ImagesWithAnnotations | utils/coco_annotator_utils.py:15 | the filter keeps exactly the images whose id is annotated |
| Materialize.IntendedCopies | utils/coco_annotator_utils.py:15-19 | one reading of the inconsistent description (annotated images only): every image copy belongs to an annotated image, every annotated image is copied, and the annotation file is copied last |
| Materialize.UnannotatedImageCopied | utils/coco_annotator_utils.py:15-41 | a snapshot with one image and no annotations has that image copied by the code, while the annotated-only reading of the description copies only the annotation file |
| Materialize.CreateDatasetFromAnnotations | utils/coco_annotator_utils.py:14-41 | a missing JSON file fails and an existing output directory gives a no-op; otherwise every image is copied from its stripped path to `output_dir + "images/" + file_name`, in order, and then the JSON file into the output directory |

## Left out

- File-system work is left out. This covers `os.path.isfile`, `os.path.exists`, `os.mkdir`, and the copies themselves. The existence checks are boolean inputs, and a copy is a recorded (source, destination) pair.
- JSON loading and dumping, the output file names `training.json`, `validation.json` and `test.json`, and the printed messages are I/O and are not modelled.
- The random source of `rd.sample` is not modelled. The shuffle is an input, required to be a rearrangement of the input images.
- IEEE floating point is not modelled. This covers rounding in `N * split[i]` that lands just below a whole number, and exact float equality in `sum(split) == 1`. For example, with the default split and 90 images, `90 * 0.7` evaluates to `62.99999999999999`, so the code splits 62/13/15. `SubsetSizes(90, Fractions(70, 15, 15, 100))` gives 63/13/14. The same happens at 170, 180 and 330 images, among others. Negative fractions are not modelled either: the numerators are natural numbers, while the code never rejects a negative entry. With `split=[-0.5, 0.5, 1.0]` the float sum is exactly 1.0, so the check at line 60 passes. With 10 images the code computes `num_train = -5`, `num_val = 5` and `num_test = 10`. The training slice `[:-5]` is then the first five images, the validation slice `[-5:0]` is empty, and the test slice `[0:10]` holds all ten. Five images land in two subsets, so the partition that `SplitProperties.BlocksPartitionImages` proves does not hold for such input.
- Malformed JSON is not modelled. A record missing `id`, `path`, `file_name` or `image_id` would raise a lookup error in the code; the typed records here always carry those fields.
- Split lists whose length is not three are not modelled. The code reads only `split[0]` and `split[1]`, and the sum check sees the whole list. A one-element list such as `[1.0]` passes the check and creates the directories, then fails with an index error at `split[1]` (line 82). A two-element list such as `[0.5, 0.5]` runs like a three-element list with a test share of 0. A longer list gives the test subset the remainder, whatever its third entry says.
- Typed pass-through fields are not modelled as JSON. A category's `id` and `name` and an annotation's `category_id` are typed, so the model cannot hold a string category id, a category without `name`, or an annotation without `category_id`. The code passes such records through unchanged (with the collapse on, it also adds the missing `category_id`).
- Non-string image paths and file names are not modelled. An image's `path` and `file_name` are strings here, so the model cannot hold a record whose `path` or `file_name` is, say, a number. The code would raise a type error for such a record in the copy loops at lines 137-148. By then the three JSON files of lines 129-134 are already written.
- Object sharing is not modelled. In the code, the subset lists share annotation objects with the input list. The model works on values. The rewrite runs before any filtering, so this makes no difference (`SplitProperties.CollapseThenKeep`).
- A missing image file during a copy aborts the code partway through. Since copies are not executed here, that failure is not modelled.

## Findings

| source | as written | input that shows it | evidently intended | confidence | as-written member | corrected member |
|---|---|---|---|---|---|---|
| utils/coco_annotator_utils.py:15-41 | the description contradicts itself: line 15 says only images with existing annotations are copied, while line 19 says the output holds copies of all images; the copy loop copies every image of the snapshot | one image `{id: 1}` and no annotations: the image is copied | one reading of line 15: copy only images that at least one annotation refers to, then the annotation file (another reading is that the exported snapshot already lists only annotated images, and line 19 plus the loop are the intent) | not executed | Materialize.MaterializedCopies, Materialize.UnannotatedImageCopied | Materialize.IntendedCopies |
