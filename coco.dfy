/**
 * The part of the COCO annotation format that the dataset utilities touch:
 * image, annotation and category records, and the snapshot that holds them.
 * Fields the utilities never read are carried along untouched as JSON values.
 */
module Coco {

  /** A JSON value. Numbers keep their literal text, so that they pass through unchanged. */
  datatype Json =
    | JNull
    | JBool(b: bool)
    | JNumber(literal: string)
    | JString(s: string)
    | JArray(items: seq<Json>)
    | JObject(fields: map<string, Json>)

  /**
   * The fields of a record that the utilities neither read nor write. The keys
   * a record already types (`id`, `file_name`, `path`, `image_id`,
   * `category_id`, `name`) are meant to be absent from it, so that "every other
   * field is kept" speaks of these fields alone.
   */
  type Fields = map<string, Json>

  /** An image record: `id`, `file_name`, `path`, and whatever else the export holds. */
  datatype Image = Image(id: int, fileName: string, path: string, extra: Fields)

  /** An annotation record: `image_id` is read and `category_id` is written; everything else passes through. */
  datatype Annotation = Annotation(imageId: int, categoryId: int, extra: Fields)

  /** A category record: `id` and `name`, plus pass-through fields. */
  datatype Category = Category(id: int, name: string, extra: Fields)

  /** A snapshot `{images, annotations, categories}`: the unit read from and written to a JSON file. */
  datatype Dataset = Dataset(images: seq<Image>, annotations: seq<Annotation>, categories: seq<Category>)

  /** The list `[img['id'] for img in images]`. */
  function IdsOf(images: seq<Image>): (ids: seq<int>)
    ensures |ids| == |images|
    ensures forall i :: 0 <= i < |images| ==> ids[i] == images[i].id
  {
    seq(|images|, i requires 0 <= i < |images| => images[i].id)
  }

  /** An id is in the id list exactly when some image carries it. */
  lemma IdsOfMembership(images: seq<Image>)
    ensures forall id :: id in IdsOf(images) <==> exists img :: img in images && img.id == id
  {
    var ids := IdsOf(images);
    forall id | id in ids ensures exists img :: img in images && img.id == id {
      var i :| 0 <= i < |ids| && ids[i] == id;
      assert images[i] in images;
    }
    forall img | img in images ensures img.id in ids {
      var i :| 0 <= i < |images| && images[i] == img;
      assert ids[i] == img.id;
    }
  }

  /** No two positions of `images` carry the same `id`. */
  predicate UniqueIds(images: seq<Image>)
  {
    forall i, j :: 0 <= i < |images| && 0 <= j < |images| && images[i].id == images[j].id ==> i == j
  }

  /** The bag form of `UniqueIds`: every record occurs once, and an id names one record. */
  ghost predicate DistinctIdsIn(bag: multiset<Image>)
  {
    (forall x | x in bag :: bag[x] == 1) &&
    (forall x, y | x in bag && y in bag && x.id == y.id :: x == y)
  }

  /** Unique ids make every record of the sequence occur exactly once. */
  lemma {:induction false} UniqueIdsOccurOnce(images: seq<Image>, x: Image)
    requires UniqueIds(images)
    requires x in images
    ensures multiset(images)[x] == 1
  {
    assert images == [images[0]] + images[1..];
    var tail := images[1..];
    assert UniqueIds(tail) by {
      forall i, j | 0 <= i < |tail| && 0 <= j < |tail| && tail[i].id == tail[j].id
        ensures i == j
      {
        assert images[i + 1].id == images[j + 1].id;
      }
    }
    if x == images[0] {
      assert x !in tail;
      assert multiset(tail)[x] == 0;
    } else {
      UniqueIdsOccurOnce(tail, x);
    }
  }

  /** `UniqueIds` on a sequence gives `DistinctIdsIn` on its bag, so it survives any permutation. */
  lemma UniqueIdsDistinctBag(images: seq<Image>)
    requires UniqueIds(images)
    ensures DistinctIdsIn(multiset(images))
  {
    var bag := multiset(images);
    forall x | x in bag ensures bag[x] == 1 {
      UniqueIdsOccurOnce(images, x);
    }
    forall x, y | x in bag && y in bag && x.id == y.id ensures x == y {
      var i :| 0 <= i < |images| && images[i] == x;
      var j :| 0 <= j < |images| && images[j] == y;
    }
  }
}
