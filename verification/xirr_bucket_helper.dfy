/**
 * The XIRR visualization's bucket shaper: whatever buckets the reference
 * point holds, the XIRR chart gets exactly one measure bucket with at most one
 * measure and one attribute bucket with at most one date item.
 */
module XirrBucketHelper {
  import opened Wrappers

  /** `BucketNames.MEASURES` and `BucketNames.ATTRIBUTE`. */
  const MEASURES: string := "measures"
  const ATTRIBUTE: string := "attribute"

  /** An item of a bucket: a measure, an attribute or a date. */
  datatype BucketItem = BucketItem(localIdentifier: string, itemType: string, attribute: Option<string>)

  /**
   * A bucket of a reference point. `others` holds every other own field of the
   * bucket object (totals, chart type, ...), by field name, in serialised form.
   */
  datatype Bucket = Bucket(localIdentifier: string, items: seq<BucketItem>, others: map<string, string>)

  /** The one part of a reference point the shaper reads. */
  datatype ReferencePoint = ReferencePoint(buckets: seq<Bucket>)

  /**
   * The bucket helper functions the shaper calls. Their source is not part of
   * this model, so they are parameters: every property below holds whatever
   * they compute, unless a lemma states what it assumes of them.
   */
  datatype BucketHelpers = BucketHelpers(
    limitNumberOfMeasuresInBuckets: (seq<Bucket>, nat) -> seq<Bucket>,
    findBucket: (seq<Bucket>, string) -> Option<Bucket>,
    getMeasures: seq<Bucket> -> seq<BucketItem>,
    getDateItems: seq<Bucket> -> seq<BucketItem>)

  /** `items[0]` as a list: `[items[0]]`, or empty when there is no first item. */
  function FirstAsList(items: seq<BucketItem>): (r: seq<BucketItem>)
    ensures |r| <= 1
    ensures |r| == 0 <==> |items| == 0
    ensures |r| == 1 ==> r[0] == items[0]
  {
    if |items| == 0 then [] else [items[0]]
  }

  /**
   * `{...found, localIdentifier: id, items: items}`: the fields of the found
   * bucket survive except the two written after the spread; spreading an
   * absent bucket contributes no field.
   */
  function Overriding(found: Option<Bucket>, id: string, items: seq<BucketItem>): (b: Bucket)
    ensures b.localIdentifier == id && b.items == items
    ensures found.Some? ==> b.others == found.value.others
    ensures found.None? ==> b.others == map[]
  {
    match found
    case Some(f) => f.(localIdentifier := id, items := items)
    case None => Bucket(id, items, map[])
  }

  /** `getXirrBuckets`. */
  function GetXirrBuckets(referencePoint: ReferencePoint, h: BucketHelpers): (r: seq<Bucket>)
    ensures |r| == 2
    ensures r[0].localIdentifier == MEASURES && r[1].localIdentifier == ATTRIBUTE
    ensures |r[0].items| <= 1 && |r[1].items| <= 1
    ensures var limited := h.limitNumberOfMeasuresInBuckets(referencePoint.buckets, 1);
            var measures := h.getMeasures(limited);
            && (|r[0].items| == 0 <==> |measures| == 0)
            && (|measures| > 0 ==> r[0].items[0] == measures[0])
            && (h.findBucket(limited, MEASURES).Some? ==> r[0].others == h.findBucket(limited, MEASURES).value.others)
            && (h.findBucket(limited, MEASURES).None? ==> r[0].others == map[])
    ensures var dates := h.getDateItems(referencePoint.buckets);
            var found := h.findBucket(referencePoint.buckets, ATTRIBUTE);
            && (|r[1].items| == 0 <==> |dates| == 0)
            && (|dates| > 0 ==> r[1].items[0] == dates[0])
            && (found.Some? ==> r[1].others == found.value.others)
            && (found.None? ==> r[1].others == map[])
  {
    var buckets := referencePoint.buckets;
    var limitedMeasureBuckets := h.limitNumberOfMeasuresInBuckets(buckets, 1);
    var currentMeasureBucket := h.findBucket(limitedMeasureBuckets, MEASURES);
    var currentAttributeBucket := h.findBucket(buckets, ATTRIBUTE);
    var measureItems := FirstAsList(h.getMeasures(limitedMeasureBuckets));
    var dateAttributeItems := FirstAsList(h.getDateItems(buckets));
    [ Overriding(currentMeasureBucket, MEASURES, measureItems),
      Overriding(currentAttributeBucket, ATTRIBUTE, dateAttributeItems) ]
  }

  // ---------------------------------------------------------------------------
  // Properties

  /** The shape the XIRR chart needs: a measure bucket and an attribute bucket, at most one item each. */
  predicate IsXirrShaped(buckets: seq<Bucket>) {
    && |buckets| == 2
    && buckets[0].localIdentifier == MEASURES
    && buckets[1].localIdentifier == ATTRIBUTE
    && |buckets[0].items| <= 1
    && |buckets[1].items| <= 1
  }

  /** Item `it` sits in some bucket of `buckets`. */
  predicate ItemIn(it: BucketItem, buckets: seq<Bucket>) {
    exists b :: b in buckets && it in b.items
  }

  /**
   * The least the bucket helpers are relied on for: `findBucket` returns a
   * bucket of the given list with the asked-for identifier, and absence only
   * when there is none; the item getters return items of the given buckets;
   * limiting measures keeps each bucket's identifier and other fields and
   * only drops items.
   */
  ghost predicate SoundHelpers(h: BucketHelpers) {
    && (forall bs: seq<Bucket>, id: string :: h.findBucket(bs, id).Some? ==>
          h.findBucket(bs, id).value in bs && h.findBucket(bs, id).value.localIdentifier == id)
    && (forall bs: seq<Bucket>, id: string :: h.findBucket(bs, id).None? ==>
          forall b: Bucket :: b in bs ==> b.localIdentifier != id)
    && (forall bs: seq<Bucket>, it: BucketItem :: it in h.getMeasures(bs) ==> ItemIn(it, bs))
    && (forall bs: seq<Bucket>, it: BucketItem :: it in h.getDateItems(bs) ==> ItemIn(it, bs))
    && (forall bs: seq<Bucket>, n: nat, b': Bucket :: b' in h.limitNumberOfMeasuresInBuckets(bs, n) ==>
          exists b: Bucket :: b in bs && b.localIdentifier == b'.localIdentifier && b.others == b'.others
                      && forall it :: it in b'.items ==> it in b.items)
  }

  /** Every reference point is shaped for XIRR, whatever the helpers compute. */
  lemma XirrBucketsAreShaped(referencePoint: ReferencePoint, h: BucketHelpers)
    ensures IsXirrShaped(GetXirrBuckets(referencePoint, h))
  {
  }

  /**
   * With sound helpers the shaper invents nothing: the kept measure and the
   * kept date item come from the reference point's buckets, and each output
   * bucket carries the other fields of an input bucket of its own name, or
   * none when the input has no bucket of that name.
   */
  lemma XirrBucketsComeFromInput(referencePoint: ReferencePoint, h: BucketHelpers)
    requires SoundHelpers(h)
    ensures var r := GetXirrBuckets(referencePoint, h);
            var bs := referencePoint.buckets;
            && (forall it :: it in r[0].items ==> ItemIn(it, bs))
            && (forall it :: it in r[1].items ==> ItemIn(it, bs))
            && ((exists b :: b in bs && b.localIdentifier == MEASURES && b.others == r[0].others)
                || r[0].others == map[])
            && ((forall b :: b in bs ==> b.localIdentifier != MEASURES) ==> r[0].others == map[])
            && ((exists b :: b in bs && b.localIdentifier == ATTRIBUTE && b.others == r[1].others)
                <==> (exists b :: b in bs && b.localIdentifier == ATTRIBUTE))
            && ((forall b :: b in bs ==> b.localIdentifier != ATTRIBUTE) ==> r[1].others == map[])
  {
    var r := GetXirrBuckets(referencePoint, h);
    var bs := referencePoint.buckets;
    var limited := h.limitNumberOfMeasuresInBuckets(bs, 1);
    forall it | it in r[0].items
      ensures ItemIn(it, bs)
    {
      assert it in h.getMeasures(limited);
      var b' :| b' in limited && it in b'.items;
      var b :| b in bs && b.localIdentifier == b'.localIdentifier && b.others == b'.others
               && forall it' :: it' in b'.items ==> it' in b.items;
      assert it in b.items;
    }
    forall it | it in r[1].items
      ensures ItemIn(it, bs)
    {
      assert it in h.getDateItems(bs);
    }
    var foundMeasures := h.findBucket(limited, MEASURES);
    if foundMeasures.Some? {
      var b' := foundMeasures.value;
      assert b' in limited;
      var b :| b in bs && b.localIdentifier == b'.localIdentifier && b.others == b'.others
               && forall it' :: it' in b'.items ==> it' in b.items;
      assert b.localIdentifier == MEASURES && b.others == r[0].others;
    }
    var foundAttribute := h.findBucket(bs, ATTRIBUTE);
    if foundAttribute.Some? {
      assert foundAttribute.value in bs;
    }
  }
}
