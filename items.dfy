/**
 * Owned items and the classification the character sheet applies to them
 * (module/actor/actor-sheet.js, `_prepareCharacterItems`): the pure specification
 * of each of the five buckets and the partition and stability laws it obeys.
 */
module Items {
  import opened Wrappers

  /**
   * An owned item as the sheet sees it. `type` and `data.type` are only read;
   * `img` is overwritten in place by the classifier.
   */
  class OwnedItem {
    const itemType: string
    const gearType: Option<string>    // `data.type`; None when missing
    var img: Option<string>

    constructor (itemType: string, gearType: Option<string>, img: Option<string>)
      ensures this.itemType == itemType && this.gearType == gearType && this.img == img
    {
      this.itemType := itemType;
      this.gearType := gearType;
      this.img := img;
    }

    /** Replaces a falsy image, in place, by the default token. */
    method DefaultImage(defaultToken: string)
      modifies this
      ensures img == DisplayImg(old(img), defaultToken)
    {
      img := DisplayImg(img, defaultToken);
    }
  }

  /** The five view-model buckets: `gear_personal`, `gear_assigned`, `gear_treasonous`, `gear_unassigned`, `skill`. */
  datatype Bucket = GearPersonal | GearAssigned | GearTreasonous | GearUnassigned | Skills

  /** Gear is an item whose top-level type is `item` or `weapon`. */
  predicate IsGear(itemType: string) {
    itemType == "item" || itemType == "weapon"
  }

  /** The gear bucket chosen by `data.type`. */
  function GearBucket(gearType: Option<string>): (b: Bucket) {
    if gearType == Some("personal") then GearPersonal
    else if gearType == Some("assigned") then GearAssigned
    else if gearType == Some("treasonous") then GearTreasonous
    else GearUnassigned
  }

  /** The bucket an item belongs to, or None when the sheet drops it. */
  function BucketOf(it: OwnedItem): (r: Option<Bucket>) {
    if IsGear(it.itemType) then Some(GearBucket(it.gearType))
    else if it.itemType == "skill" then Some(Skills)
    else None
  }

  /** Gear goes to the bucket its `data.type` names; every unknown or missing value is unassigned. */
  lemma GearBucketByDataType(gearType: Option<string>)
    ensures GearBucket(gearType) != Skills
    ensures GearBucket(gearType) == GearPersonal <==> gearType == Some("personal")
    ensures GearBucket(gearType) == GearAssigned <==> gearType == Some("assigned")
    ensures GearBucket(gearType) == GearTreasonous <==> gearType == Some("treasonous")
    ensures GearBucket(gearType) == GearUnassigned <==>
              gearType != Some("personal") && gearType != Some("assigned") && gearType != Some("treasonous")
  {
  }

  /** Items and weapons are gear, skills are skills, and every other type is dropped. */
  lemma BucketOfByType(it: OwnedItem)
    ensures BucketOf(it).Some? <==> IsGear(it.itemType) || it.itemType == "skill"
    ensures BucketOf(it) == Some(Skills) <==> it.itemType == "skill"
    ensures IsGear(it.itemType) ==> BucketOf(it) == Some(GearBucket(it.gearType))
  {
  }

  /** Bucket `b` of `items`: the items classified into `b`, in input order. */
  function InBucket(b: Bucket, items: seq<OwnedItem>): (r: seq<OwnedItem>)
    ensures |r| <= |items|
  {
    if items == [] then []
    else
      var last := items[|items| - 1];
      InBucket(b, items[..|items| - 1]) + (if BucketOf(last) == Some(b) then [last] else [])
  }

  /** Classifying one more item appends it to its own bucket and leaves the others alone. */
  lemma BucketSnoc(b: Bucket, items: seq<OwnedItem>, x: OwnedItem)
    ensures InBucket(b, items + [x]) == InBucket(b, items) + if BucketOf(x) == Some(b) then [x] else []
  {
    assert (items + [x])[..|items|] == items;
  }

  /** The number of items of type `item`, `weapon` or `skill`. */
  function ClassifiedCount(items: seq<OwnedItem>): (n: nat)
    ensures n <= |items|
  {
    if items == [] then 0
    else
      var t := items[|items| - 1].itemType;
      ClassifiedCount(items[..|items| - 1]) + (if t == "item" || t == "weapon" || t == "skill" then 1 else 0)
  }

  /** Partition, counting duplicates: a bucket holds every occurrence of the items it owns and none of any other. */
  lemma {:induction false} BucketMultiplicity(b: Bucket, items: seq<OwnedItem>, x: OwnedItem)
    ensures multiset(InBucket(b, items))[x] == if BucketOf(x) == Some(b) then multiset(items)[x] else 0
  {
    if items != [] {
      var init, last := items[..|items| - 1], items[|items| - 1];
      assert items == init + [last];
      BucketMultiplicity(b, init, x);
      SnocMultiplicity(b, init, last, x);
    }
  }

  /** One step of BucketMultiplicity: the occurrences one more item adds to the input and to its bucket. */
  lemma SnocMultiplicity(b: Bucket, s: seq<OwnedItem>, y: OwnedItem, x: OwnedItem)
    ensures multiset(InBucket(b, s + [y]))[x] == multiset(InBucket(b, s))[x] + if y == x && BucketOf(y) == Some(b) then 1 else 0
    ensures multiset(s + [y])[x] == multiset(s)[x] + if y == x then 1 else 0
  {
    BucketSnoc(b, s, y);
  }

  /** An item is in bucket `b` exactly when it is among the input items and classified into `b`. */
  lemma {:induction false} BucketMembership(b: Bucket, items: seq<OwnedItem>, x: OwnedItem)
    ensures x in InBucket(b, items) <==> x in items && BucketOf(x) == Some(b)
  {
    BucketMultiplicity(b, items, x);
  }

  /** Gear lands in exactly one gear bucket, the one its `data.type` names, and never in `skill`. */
  lemma GearInExactlyOneBucket(items: seq<OwnedItem>, x: OwnedItem)
    requires x in items && IsGear(x.itemType)
    ensures x in InBucket(GearBucket(x.gearType), items)
    ensures forall b :: b != GearBucket(x.gearType) ==> x !in InBucket(b, items)
  {
    forall b ensures x in InBucket(b, items) <==> b == GearBucket(x.gearType) {
      BucketMembership(b, items, x);
    }
  }

  /** A skill lands in `skill` and in no gear bucket. */
  lemma SkillOnlyInSkills(items: seq<OwnedItem>, x: OwnedItem)
    requires x in items && x.itemType == "skill"
    ensures x in InBucket(Skills, items)
    ensures forall b :: b != Skills ==> x !in InBucket(b, items)
  {
    forall b ensures x in InBucket(b, items) <==> b == Skills {
      BucketMembership(b, items, x);
    }
  }

  /** An item of any other type is dropped from every bucket. */
  lemma OtherTypeDropped(items: seq<OwnedItem>, x: OwnedItem)
    requires !IsGear(x.itemType) && x.itemType != "skill"
    ensures forall b :: x !in InBucket(b, items)
  {
    forall b ensures x !in InBucket(b, items) {
      BucketMembership(b, items, x);
    }
  }

  /** Filtering distributes over concatenation: classifying a list piecewise gives the same buckets. */
  lemma {:induction false} BucketConcat(b: Bucket, s: seq<OwnedItem>, t: seq<OwnedItem>)
    ensures InBucket(b, s + t) == InBucket(b, s) + InBucket(b, t)
  {
    if t == [] {
      assert s + t == s;
    } else {
      var n := |t| - 1;
      var tail := if BucketOf(t[n]) == Some(b) then [t[n]] else [];
      calc {
        InBucket(b, s + t);
        { assert (s + t)[..|s + t| - 1] == s + t[..n]; assert (s + t)[|s + t| - 1] == t[n]; }
        InBucket(b, s + t[..n]) + tail;
        { BucketConcat(b, s, t[..n]); }
        InBucket(b, s) + InBucket(b, t[..n]) + tail;
        InBucket(b, s) + InBucket(b, t);
      }
    }
  }

  /** Splitting the input around one item splits its bucket the same way. */
  lemma BucketSplitAt(b: Bucket, items: seq<OwnedItem>, k: nat)
    requires k < |items|
    ensures InBucket(b, items) ==
              InBucket(b, items[..k]) + (if BucketOf(items[k]) == Some(b) then [items[k]] else []) + InBucket(b, items[k + 1..])
  {
    assert items == (items[..k] + [items[k]]) + items[k + 1..];
    BucketConcat(b, items[..k] + [items[k]], items[k + 1..]);
    BucketSnoc(b, items[..k], items[k]);
  }

  /** Stability: of two items in one bucket, the earlier input comes first. */
  lemma BucketKeepsOrder(b: Bucket, items: seq<OwnedItem>, i: nat, j: nat)
    requires i < j < |items|
    requires BucketOf(items[i]) == Some(b) && BucketOf(items[j]) == Some(b)
    ensures InBucket(b, items) ==
              InBucket(b, items[..i]) + [items[i]] + InBucket(b, items[i + 1..j]) + [items[j]] + InBucket(b, items[j + 1..])
  {
    BucketSplitAt(b, items, j);
    var prefix := items[..j];
    BucketSplitAt(b, prefix, i);
    assert prefix[..i] == items[..i] && prefix[i] == items[i] && prefix[i + 1..] == items[i + 1..j];
  }

  /** The five buckets together are exactly as long as the number of classified items. */
  lemma {:induction false} BucketsCoverClassified(items: seq<OwnedItem>)
    ensures |InBucket(GearPersonal, items)| + |InBucket(GearAssigned, items)| + |InBucket(GearTreasonous, items)|
            + |InBucket(GearUnassigned, items)| + |InBucket(Skills, items)| == ClassifiedCount(items)
  {
    if items != [] {
      BucketsCoverClassified(items[..|items| - 1]);
    }
  }

  /** JavaScript truthiness of an image path: undefined, null and "" are falsy. */
  predicate Truthy(img: Option<string>) {
    img.Some? && img.value != ""
  }

  /** The image the sheet shows: the item's own when truthy, otherwise the default token. */
  function DisplayImg(img: Option<string>, defaultToken: string): (r: Option<string>)
    ensures r.Some? && (defaultToken != "" ==> Truthy(r))
  {
    if Truthy(img) then img else Some(defaultToken)
  }

  /** Defaulting changes exactly the falsy images, and a truthy one is kept as it is. */
  lemma DisplayImgTruthy(img: Option<string>, defaultToken: string)
    ensures DisplayImg(img, defaultToken) != img ==> !Truthy(img)
    ensures Truthy(img) <==> Truthy(DisplayImg(img, defaultToken)) && DisplayImg(img, defaultToken) == img
  {
  }

  /** Defaulting an image twice is defaulting it once. */
  lemma DisplayImgIdempotent(img: Option<string>, defaultToken: string)
    ensures DisplayImg(DisplayImg(img, defaultToken), defaultToken) == DisplayImg(img, defaultToken)
  {
  }
}
