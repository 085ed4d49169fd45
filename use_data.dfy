/**
 * The `useData` hook: loading turns the county features and the classified
 * testimonial table into map points, a count per classification and the
 * initial filter state; filtering recomputes the visible subset whenever the
 * filter flags change; toggling sets one flag.
 *
 * The centroid of each feature (d3's `geoCentroid`) and the random numbers
 * used for jitter (`Math.random`) are inputs. A cluster index is modelled as
 * the points it was loaded with.
 */
module UseData {
  import opened Base
  import opened Text
  import opened Values
  import Assoc
  import Lists

  /** The classifications offered as filters ("Other" is not one of them). */
  const TARGET_CLASSIFICATIONS: seq<string> := [
    "Ankylosing Spondylitis", "Hidradenitis Suppurativa", "Plaque Psoriasis", "Psoriatic Arthritis",
    "Breast Cancer", "Heart Disease", "Sjögren's Syndrome"
  ]
  const OTHER := "Other"
  /** The keys of the classification count map, in insertion order. */
  const COUNT_KEYS: seq<string> := TARGET_CLASSIFICATIONS + [OTHER]
  const POSITIVE := "positive_verbatim"
  const NEGATIVE := "negative_verbatim"
  /** `TypeError` messages of reading a property of `null`. */
  const NULL_COUNTY := "Cannot read properties of null (reading 'county')"
  const NULL_ITEM := "Cannot read properties of null (reading 'classification')"
  const NULL_DATA := "Cannot convert undefined or null to object"
  /** Half the width of the jitter box around a centroid, in degrees. */
  const JITTER := 0.005

  // ---------------------------------------------------------------------
  // County centroids.

  datatype Float = NaN | Num(value: real)

  /** A county feature: its `id` (the FIPS code) and its computed centroid. */
  datatype Feature = Feature(id: Option<Json>, centroid: (Float, Float))

  /** A feature that enters the centroid map: a truthy id and no `NaN` coordinate. */
  predicate HasCentroid(f: Feature) {
    Truthy(f.id) && f.centroid.0.Num? && f.centroid.1.Num?
  }

  /** The property key the FIPS code becomes. */
  function FeatureKey(f: Feature): string {
    JsString(f.id)
  }

  function CentroidOf(f: Feature): (real, real)
    requires HasCentroid(f)
  {
    (f.centroid.0.value, f.centroid.1.value)
  }

  /** `countyCentroids` after the `forEach` over the features. */
  function Centroids(features: seq<Feature>): seq<(string, (real, real))> {
    if features == [] then []
    else
      var prev := Centroids(features[..|features| - 1]);
      var f := features[|features| - 1];
      if HasCentroid(f) then Assoc.Set(prev, FeatureKey(f), CentroidOf(f)) else prev
  }

  /** Every feature with a truthy id and a valid centroid has an entry. */
  lemma {:induction false} CentroidsComplete(features: seq<Feature>, i: nat)
    requires i < |features| && HasCentroid(features[i])
    ensures Assoc.HasKey(Centroids(features), FeatureKey(features[i]))
  {
    var init, f := features[..|features| - 1], features[|features| - 1];
    var k := FeatureKey(features[i]);
    if i < |init| {
      assert features[i] == init[i];
      CentroidsComplete(init, i);
      if HasCentroid(f) && FeatureKey(f) != k {
        assert Assoc.Get(Centroids(features), k) == Assoc.Get(Centroids(init), k);
      }
    } else {
      assert Assoc.Get(Centroids(features), k).Some?;
    }
  }

  /** `features[i]` is the last feature that puts an entry under `k`. */
  predicate LastFor(features: seq<Feature>, k: string, i: int) {
    0 <= i < |features| && HasCentroid(features[i]) && FeatureKey(features[i]) == k
    && forall j :: i < j < |features| && HasCentroid(features[j]) ==> FeatureKey(features[j]) != k
  }

  lemma LastForExtend(init: seq<Feature>, f: Feature, k: string, i: int)
    requires LastFor(init, k, i) && !(HasCentroid(f) && FeatureKey(f) == k)
    ensures LastFor(init + [f], k, i)
  {
    var features := init + [f];
    forall j | i < j < |features| && HasCentroid(features[j])
      ensures FeatureKey(features[j]) != k
    {
      if j < |init| {
        assert features[j] == init[j];
      }
    }
  }

  /** Each entry is the centroid of the last valid feature with that key. */
  lemma {:induction false} CentroidsSound(features: seq<Feature>, k: string)
    requires Assoc.HasKey(Centroids(features), k)
    ensures exists i :: LastFor(features, k, i) && Assoc.Get(Centroids(features), k) == Some(CentroidOf(features[i]))
  {
    var init, f := features[..|features| - 1], features[|features| - 1];
    assert features == init + [f];
    if HasCentroid(f) && FeatureKey(f) == k {
      assert LastFor(features, k, |init|);
    } else {
      assert Assoc.Get(Centroids(features), k) == Assoc.Get(Centroids(init), k);
      CentroidsSound(init, k);
      var i :| LastFor(init, k, i) && Assoc.Get(Centroids(init), k) == Some(CentroidOf(init[i]));
      LastForExtend(init, f, k, i);
      assert features[i] == init[i];
    }
  }

  /** The centroid loop. */
  method BuildCentroids(features: seq<Feature>) returns (countyCentroids: seq<(string, (real, real))>)
    ensures countyCentroids == Centroids(features)
  {
    countyCentroids := [];
    var i := 0;
    while i < |features|
      invariant 0 <= i <= |features|
      invariant countyCentroids == Centroids(features[..i])
    {
      var feature := features[i];
      assert features[..i + 1][..i] == features[..i];
      if HasCentroid(feature) {
        countyCentroids := Assoc.Set(countyCentroids, FeatureKey(feature), CentroidOf(feature));
      }
      i := i + 1;
    }
    assert features[..i] == features;
  }

  // ---------------------------------------------------------------------
  // Testimonials to points.

  /** `Object.values(testimonialData)`; `null` raises `TypeError`. */
  function ObjectValues(data: Json): Result<seq<Json>, string> {
    match data
    case JNull => Err(NULL_DATA)
    case JObj(fields) => Ok(Assoc.Values(fields))
    case JArr(items) => Ok(items)
    case JStr(s) => Ok(seq(|s|, k requires 0 <= k < |s| => JStr([s[k]])))
    case _ => Ok([])
  }

  /** `item.classification || 'Other'`. */
  function Classification(item: Json): Json {
    var v := Field(item, "classification");
    if Truthy(v) then v.value else JStr(OTHER)
  }

  /**
   * The count a classification goes to: the entry of its property key when
   * the map has one, "Other" otherwise.
   */
  function Bucket(tag: Json): string {
    BucketIn(COUNT_KEYS, JsValueString(tag))
  }

  function BucketIn(keys: seq<string>, key: string): string {
    if key in keys then key else OTHER
  }

  /** The count stored under `key`, zero when there is none. */
  function CountAt(counts: seq<(string, nat)>, key: string): nat {
    Assoc.Count(counts, key)
  }

  /** The `hasOwnProperty` test and the increment of `classificationCountMap[key]`. */
  function IncrementKey(counts: seq<(string, nat)>, key: string): seq<(string, nat)> {
    if Assoc.HasKey(counts, key) then Bump(counts, key) else Bump(counts, OTHER)
  }

  /** `counts[key]++`. */
  function Bump(counts: seq<(string, nat)>, key: string): seq<(string, nat)> {
    Assoc.Increment(counts, key)
  }

  /** One testimonial of a county that has a centroid, with where it was found. */
  datatype Slot = Slot(fips: Option<Json>, countyIndex: nat, itemIndex: nat, sentiment: string,
                       item: Json, centroid: (real, real), countyName: Option<Json>)

  /** The slots of one verbatim list, indexed within that list. */
  function ListSlots(fips: Option<Json>, countyIndex: nat, centroid: (real, real), countyName: Option<Json>,
                     items: seq<Json>, sentiment: string): seq<Slot>
  {
    seq(|items|, k requires 0 <= k < |items| => Slot(fips, countyIndex, k, sentiment, items[k], centroid, countyName))
  }

  predicate HasNull(items: seq<Json>) {
    exists k :: 0 <= k < |items| && items[k].JNull?
  }

  /**
   * The slots of the county at position `index` of `Object.values`: none
   * without a centroid, else its positive items then its negative items.
   */
  function CountySlots(index: nat, info: Json, centroids: seq<(string, (real, real))>): Result<seq<Slot>, string> {
    if info == JNull then Err(NULL_COUNTY)
    else
      var fips := Field(info, "county");
      var coordinates := Assoc.Get(centroids, JsString(fips));
      if coordinates.None? then Ok([])
      else
        var pos, neg := ListItems(Field(info, POSITIVE)), ListItems(Field(info, NEGATIVE));
        if HasNull(pos) || HasNull(neg) then Err(NULL_ITEM)
        else
          var name := Field(info, "county_name");
          Ok(ListSlots(fips, index, coordinates.value, name, pos, "positive")
             + ListSlots(fips, index, coordinates.value, name, neg, "negative"))
  }

  /** The slots of all counties, or the first `TypeError`. */
  function Slots(values: seq<Json>, centroids: seq<(string, (real, real))>): Result<seq<Slot>, string> {
    if values == [] then Ok([])
    else
      var prev := Slots(values[..|values| - 1], centroids);
      var here := CountySlots(|values| - 1, values[|values| - 1], centroids);
      if prev.Err? then prev
      else if here.Err? then here
      else Ok(prev.value + here.value)
  }

  /** A map point (a GeoJSON feature with `cluster: false`). */
  datatype Point = Point(testimonialId: string, category: string, disease: Json, text: Option<Json>,
                         county: Option<Json>, coordinates: (real, real))

  /** The point of the `k`-th slot; it draws the `2k`-th and `2k+1`-th random numbers. */
  function MakePoint(slot: Slot, k: nat, random: nat -> real): Point {
    Point(JsString(slot.fips) + "-" + NatToString(slot.countyIndex) + "-" + NatToString(slot.itemIndex),
          if slot.sentiment == "positive" then "positive" else "negative",
          Classification(slot.item),
          Field(slot.item, "nn_verbatim"),
          slot.countyName,
          (slot.centroid.0 + (random(2 * k) - 0.5) * 0.01, slot.centroid.1 + (random(2 * k + 1) - 0.5) * 0.01))
  }

  function PointsOf(slots: seq<Slot>, random: nat -> real): seq<Point> {
    seq(|slots|, k requires 0 <= k < |slots| => MakePoint(slots[k], k, random))
  }

  /** `classificationCountMap` after counting the slots. */
  function Counts(slots: seq<Slot>): seq<(string, nat)> {
    CountsFrom(COUNT_KEYS, slots)
  }

  /** Counting the slots into a map that starts with `keys` at zero. */
  function CountsFrom(keys: seq<string>, slots: seq<Slot>): seq<(string, nat)> {
    if slots == [] then Assoc.FromKeys<string, nat>(keys, 0)
    else IncrementKey(CountsFrom(keys, slots[..|slots| - 1]), JsValueString(Classification(slots[|slots| - 1].item)))
  }

  /** The classifications with at least one testimonial, in list order. */
  function Available(counts: seq<(string, nat)>): seq<string> {
    Lists.Filter(TARGET_CLASSIFICATIONS, (c: string) => CountAt(counts, c) > 0)
  }

  /** A cluster index, known by the points it was loaded with. */
  datatype ClusterIndex = Index(points: seq<Point>)

  /** The hook state `loadData` sets. */
  datatype Loaded = Loaded(points: seq<Point>, counts: seq<(string, nat)>, diseaseTypes: seq<string>,
                           activeFilters: seq<(string, bool)>, filteredData: seq<Point>,
                           clusterIndex: ClusterIndex, filteredClusterIndex: ClusterIndex)

  /** What loading produces, or the message of the error it catches. */
  function Load(features: seq<Feature>, data: Json, random: nat -> real): Result<Loaded, string> {
    var values := ObjectValues(data);
    if values.Err? then Err(values.error)
    else
      var slots := Slots(values.value, Centroids(features));
      if slots.Err? then Err(slots.error)
      else
        var points := PointsOf(slots.value, random);
        var counts := Counts(slots.value);
        var available := Available(counts);
        Ok(Loaded(points, counts, available, Assoc.FromKeys(available, false), [], Index(points), Index([])))
  }

  // ---------------------------------------------------------------------
  // Properties of loading.

  /** The number of points the source promises: the array lengths of the counties with a centroid. */
  function ExpectedPoints(values: seq<Json>, centroids: seq<(string, (real, real))>): nat {
    if values == [] then 0
    else
      var info := values[|values| - 1];
      ExpectedPoints(values[..|values| - 1], centroids)
      + (if Assoc.HasKey(centroids, JsString(Field(info, "county")))
         then |ListItems(Field(info, POSITIVE))| + |ListItems(Field(info, NEGATIVE))| else 0)
  }

  /** One point per item of an array-valued verbatim field of a county with a centroid. */
  lemma {:induction false} PointCount(values: seq<Json>, centroids: seq<(string, (real, real))>)
    requires Slots(values, centroids).Ok?
    ensures |Slots(values, centroids).value| == ExpectedPoints(values, centroids)
  {
    if values != [] {
      PointCount(values[..|values| - 1], centroids);
    }
  }

  /** Every slot lies in a county whose FIPS has a centroid, and carries that centroid. */
  lemma {:induction false} SlotsHaveCentroids(values: seq<Json>, centroids: seq<(string, (real, real))>)
    requires Slots(values, centroids).Ok?
    ensures var s := Slots(values, centroids).value;
      forall k :: 0 <= k < |s| ==> Assoc.Get(centroids, JsString(s[k].fips)) == Some(s[k].centroid)
  {
    if values != [] {
      var init := values[..|values| - 1];
      SlotsHaveCentroids(init, centroids);
      var prev := Slots(init, centroids).value;
      var here := CountySlots(|values| - 1, values[|values| - 1], centroids).value;
      var all: seq<Slot> := prev + here;
      forall k | 0 <= k < |all|
        ensures Assoc.Get(centroids, JsString(all[k].fips)) == Some(all[k].centroid)
      {
        if k >= |prev| {
          assert all[k] == here[k - |prev|];
        }
      }
    }
  }

  /** Within a county, the positive items come first, each list numbered from 0. */
  lemma CountyOrder(index: nat, info: Json, centroids: seq<(string, (real, real))>)
    requires CountySlots(index, info, centroids).Ok?
    requires Assoc.HasKey(centroids, JsString(Field(info, "county")))
    ensures var s := CountySlots(index, info, centroids).value;
      var pos, neg := ListItems(Field(info, POSITIVE)), ListItems(Field(info, NEGATIVE));
      && |s| == |pos| + |neg|
      && (forall k :: 0 <= k < |pos| ==> s[k].sentiment == "positive" && s[k].itemIndex == k && s[k].item == pos[k])
      && (forall k :: |pos| <= k < |s| ==> s[k].sentiment == "negative" && s[k].itemIndex == k - |pos| && s[k].item == neg[k - |pos|])
  {
    var s := CountySlots(index, info, centroids).value;
    var fips, name := Field(info, "county"), Field(info, "county_name");
    var coordinates := Assoc.Get(centroids, JsString(fips)).value;
    var pos, neg := ListItems(Field(info, POSITIVE)), ListItems(Field(info, NEGATIVE));
    var a := ListSlots(fips, index, coordinates, name, pos, "positive");
    var b := ListSlots(fips, index, coordinates, name, neg, "negative");
    assert s == a + b;
    forall k | 0 <= k < |pos| ensures s[k].sentiment == "positive" && s[k].itemIndex == k && s[k].item == pos[k] {
      assert s[k] == a[k];
    }
    forall k | |pos| <= k < |s| ensures s[k].sentiment == "negative" && s[k].itemIndex == k - |pos| && s[k].item == neg[k - |pos|] {
      assert s[k] == b[k - |pos|];
    }
  }

  /**
   * Testimonial ids are not unique: the first positive and the first
   * negative testimonial of a county get the same id.
   */
  lemma IdsRepeatAcrossSentiments(index: nat, info: Json, centroids: seq<(string, (real, real))>, random: nat -> real)
    requires CountySlots(index, info, centroids).Ok?
    requires Assoc.HasKey(centroids, JsString(Field(info, "county")))
    requires |ListItems(Field(info, POSITIVE))| > 0 && |ListItems(Field(info, NEGATIVE))| > 0
    ensures var s := CountySlots(index, info, centroids).value;
      var p := |ListItems(Field(info, POSITIVE))|;
      MakePoint(s[0], 0, random).testimonialId == MakePoint(s[p], p, random).testimonialId
  {
    CountyOrder(index, info, centroids);
  }

  /** Each coordinate of a point is within 0.005 of its county's centroid. */
  lemma Jitter(slot: Slot, k: nat, random: nat -> real)
    requires 0.0 <= random(2 * k) < 1.0 && 0.0 <= random(2 * k + 1) < 1.0
    ensures var p := MakePoint(slot, k, random);
      && slot.centroid.0 - JITTER <= p.coordinates.0 < slot.centroid.0 + JITTER
      && slot.centroid.1 - JITTER <= p.coordinates.1 < slot.centroid.1 + JITTER
  {
  }

  /** A missing or falsy classification is "Other"; any other is kept as stored, expected or not. */
  lemma ClassificationDefault(item: Json)
    ensures !Truthy(Field(item, "classification")) ==> Classification(item) == JStr(OTHER)
    ensures Truthy(Field(item, "classification")) ==> Some(Classification(item)) == Field(item, "classification")
  {
  }

  /** With the keys fixed in place, a classification goes to its bucket. */
  lemma IncrementBucket(counts: seq<(string, nat)>, keys: seq<string>, key: string)
    requires Assoc.Keys(counts) == keys
    ensures IncrementKey(counts, key) == Bump(counts, BucketIn(keys, key))
  {
    Assoc.HasKeyIffInKeys(counts, key);
  }

  /** The number of slots whose classification goes to `key`. */
  function BucketCount(keys: seq<string>, slots: seq<Slot>, key: string): nat {
    if slots == [] then 0
    else
      BucketCount(keys, slots[..|slots| - 1], key)
      + (if BucketIn(keys, JsValueString(Classification(slots[|slots| - 1].item))) == key then 1 else 0)
  }

  /** Counting keeps the keys, puts each slot in its bucket, and adds up to the number of slots. */
  lemma {:induction false} CountsFromCorrect(keys: seq<string>, slots: seq<Slot>, key: string)
    requires OTHER in keys && key in keys
    ensures Assoc.Keys(CountsFrom(keys, slots)) == keys
    ensures Assoc.Get(CountsFrom(keys, slots), key) == Some(BucketCount(keys, slots, key))
    ensures Assoc.SumValues(CountsFrom(keys, slots)) == |slots|
  {
    if slots == [] {
      CountsBase(keys, key);
    } else {
      CountsFromCorrect(keys, slots[..|slots| - 1], key);
      CountsInduct(keys, slots, key);
    }
  }

  /** The induction step of `CountsFromCorrect`: from the slots but the last to all of them. */
  lemma CountsInduct(keys: seq<string>, slots: seq<Slot>, key: string)
    requires OTHER in keys && slots != []
    requires var init := slots[..|slots| - 1];
      && Assoc.Keys(CountsFrom(keys, init)) == keys
      && Assoc.Get(CountsFrom(keys, init), key) == Some(BucketCount(keys, init, key))
      && Assoc.SumValues(CountsFrom(keys, init)) == |init|
    ensures Assoc.Keys(CountsFrom(keys, slots)) == keys
    ensures Assoc.Get(CountsFrom(keys, slots), key) == Some(BucketCount(keys, slots, key))
    ensures Assoc.SumValues(CountsFrom(keys, slots)) == |slots|
  {
    var init, tag := slots[..|slots| - 1], JsValueString(Classification(slots[|slots| - 1].item));
    var prev, next := CountsFrom(keys, init), CountsFrom(keys, slots);
    assert next == IncrementKey(prev, tag);
    assert BucketCount(keys, slots, key) == BucketCount(keys, init, key) + if BucketIn(keys, tag) == key then 1 else 0;
    CountsStep(keys, prev, next, tag, key, BucketCount(keys, init, key), BucketCount(keys, slots, key));
  }

  lemma CountsBase(keys: seq<string>, key: string)
    requires key in keys
    ensures Assoc.Keys(Assoc.FromKeys<string, nat>(keys, 0)) == keys
    ensures Assoc.Get(Assoc.FromKeys<string, nat>(keys, 0), key) == Some(0)
    ensures Assoc.SumValues(Assoc.FromKeys<string, nat>(keys, 0)) == 0
  {
    Assoc.FromKeysGet<string, nat>(keys, 0, key);
    ZeroSum(keys);
  }

  /** One increment keeps the keys, adds one to the bucket of `tag` and to the total. */
  lemma CountsStep(keys: seq<string>, prev: seq<(string, nat)>, next: seq<(string, nat)>, tag: string, key: string,
                   c: nat, c': nat)
    requires OTHER in keys && Assoc.Keys(prev) == keys && Assoc.Get(prev, key) == Some(c)
    requires next == IncrementKey(prev, tag) && c' == c + if BucketIn(keys, tag) == key then 1 else 0
    ensures Assoc.Keys(next) == keys
    ensures Assoc.Get(next, key) == Some(c')
    ensures Assoc.SumValues(next) == Assoc.SumValues(prev) + 1
  {
    IncrementBucket(prev, keys, tag);
    var b := BucketIn(keys, tag);
    assert next == Assoc.Increment(prev, b);
    Assoc.HasKeyIffInKeys(prev, b);
    Assoc.HasKeyIffInKeys(prev, key);
    Assoc.CountOf(prev, key, c);
    if b == key {
      Assoc.IncrementCount(prev, b, b);
      assert c' == c + 1;
    } else {
      Assoc.IncrementCount(prev, b, key);
      assert c' == c;
    }
    Assoc.GetCount(next, key);
  }

  /**
   * The count map keeps exactly its eight keys, each holding the number of
   * testimonials whose classification goes to it, and the counts add up to
   * the number of points.
   */
  lemma CountsCorrect(slots: seq<Slot>, key: string)
    requires key in COUNT_KEYS
    ensures Assoc.Keys(Counts(slots)) == COUNT_KEYS
    ensures Assoc.Get(Counts(slots), key) == Some(BucketCount(COUNT_KEYS, slots, key))
    ensures Assoc.SumValues(Counts(slots)) == |slots|
  {
    assert COUNT_KEYS[|COUNT_KEYS| - 1] == OTHER;
    CountsFromCorrect(COUNT_KEYS, slots, key);
  }

  lemma {:induction false} ZeroSum(ks: seq<string>)
    ensures Assoc.SumValues(Assoc.FromKeys<string, nat>(ks, 0)) == 0
  {
    if ks != [] {
      ZeroSum(ks[1..]);
      assert Assoc.FromKeys<string, nat>(ks, 0)[1..] == Assoc.FromKeys<string, nat>(ks[1..], 0);
    }
  }

  /**
   * The offered filters are exactly the target classifications that were
   * counted at least once, never "Other", and all start off.
   */
  lemma AvailableFilters(counts: seq<(string, nat)>, c: string)
    ensures c in Available(counts) <==> c in TARGET_CLASSIFICATIONS && CountAt(counts, c) > 0
    ensures OTHER !in Available(counts)
    ensures Assoc.Keys(Assoc.FromKeys(Available(counts), false)) == Available(counts)
    ensures c in Available(counts) ==> Assoc.Get(Assoc.FromKeys(Available(counts), false), c) == Some(false)
  {
    Lists.FilterMembers(TARGET_CLASSIFICATIONS, (c: string) => CountAt(counts, c) > 0, c);
    Lists.FilterMembers(TARGET_CLASSIFICATIONS, (c: string) => CountAt(counts, c) > 0, OTHER);
    if c in Available(counts) {
      Assoc.FromKeysGet(Available(counts), false, c);
    }
  }

  /**
   * The state loading leaves: one point per expected testimonial, counts
   * over the fixed keys adding up to the number of points, every offered
   * filter switched off, and no filtered data — the same as the filter
   * effect gives for those flags.
   */
  lemma LoadedState(features: seq<Feature>, data: Json, random: nat -> real)
    requires Load(features, data, random).Ok?
    ensures var l := Load(features, data, random).value;
      && |l.points| == ExpectedPoints(ObjectValues(data).value, Centroids(features))
      && Assoc.Keys(l.counts) == COUNT_KEYS
      && Assoc.SumValues(l.counts) == |l.points|
      && l.diseaseTypes == Available(l.counts)
      && Assoc.Keys(l.activeFilters) == l.diseaseTypes
      && !AnyActive(l.activeFilters)
      && l.clusterIndex == Index(l.points)
      && FilterEffect(Some(l.points), l.activeFilters) == Some((l.filteredData, l.filteredClusterIndex))
  {
    var values := ObjectValues(data).value;
    var slots := Slots(values, Centroids(features)).value;
    PointCount(values, Centroids(features));
    CountsCorrect(slots, OTHER);
  }

  // ---------------------------------------------------------------------
  // The loading loop.

  lemma PointsSnoc(slots: seq<Slot>, s: Slot, random: nat -> real)
    ensures PointsOf(slots + [s], random) == PointsOf(slots, random) + [MakePoint(s, |slots|, random)]
  {
  }

  lemma CountsSnoc(slots: seq<Slot>, s: Slot)
    ensures Counts(slots + [s]) == IncrementKey(Counts(slots), JsValueString(Classification(s.item)))
  {
    assert (slots + [s])[..|slots|] == slots;
  }

  lemma ListSlotsStep(fips: Option<Json>, countyIndex: nat, centroid: (real, real), countyName: Option<Json>,
                      items: seq<Json>, sentiment: string, j: nat)
    requires j < |items|
    ensures ListSlots(fips, countyIndex, centroid, countyName, items[..j + 1], sentiment)
         == ListSlots(fips, countyIndex, centroid, countyName, items[..j], sentiment)
            + [Slot(fips, countyIndex, j, sentiment, items[j], centroid, countyName)]
  {
  }

  lemma Regroup<T>(a: seq<T>, b: seq<T>, c: seq<T>)
    ensures a + b + c == a + (b + c)
    ensures a + [] == a
  {
  }

  /** The slots, points and counts after one more item of a verbatim list. */
  lemma ProcessStep(done: seq<Slot>, seen: seq<Slot>, fips: Option<Json>, index: nat, coordinates: (real, real),
                    countyName: Option<Json>, items: seq<Json>, sentiment: string, j: nat, random: nat -> real)
    requires j < |items| && seen == done + ListSlots(fips, index, coordinates, countyName, items[..j], sentiment)
    ensures var slot := Slot(fips, index, j, sentiment, items[j], coordinates, countyName);
      && seen + [slot] == done + ListSlots(fips, index, coordinates, countyName, items[..j + 1], sentiment)
      && PointsOf(seen + [slot], random) == PointsOf(seen, random) + [MakePoint(slot, |seen|, random)]
      && Counts(seen + [slot]) == IncrementKey(Counts(seen), JsValueString(Classification(items[j])))
  {
    var slot := Slot(fips, index, j, sentiment, items[j], coordinates, countyName);
    PointsSnoc(seen, slot, random);
    CountsSnoc(seen, slot);
    ListSlotsStep(fips, index, coordinates, countyName, items, sentiment, j);
    Regroup(done, ListSlots(fips, index, coordinates, countyName, items[..j], sentiment), [slot]);
  }

  lemma NullAt(items: seq<Json>, j: nat)
    requires j < |items| && items[j].JNull?
    ensures HasNull(items)
  {
  }

  lemma NoNullStep(items: seq<Json>, j: nat)
    requires j < |items| && !items[j].JNull? && !HasNull(items[..j])
    ensures !HasNull(items[..j + 1])
  {
    assert forall k :: 0 <= k < j + 1 ==> items[..j + 1][k] == items[k];
    assert forall k :: 0 <= k < j ==> items[..j][k] == items[k];
  }

  /** `processVerbatims`: one point and one count per item, or the `TypeError` of a `null` item. */
  method ProcessVerbatims(items: seq<Json>, sentiment: string, fips: Option<Json>, index: nat,
                          coordinates: (real, real), countyName: Option<Json>, random: nat -> real,
                          points0: seq<Point>, counts0: seq<(string, nat)>, ghost done: seq<Slot>)
    returns (points: seq<Point>, counts: seq<(string, nat)>, failure: bool)
    requires points0 == PointsOf(done, random) && counts0 == Counts(done)
    ensures failure <==> HasNull(items)
    ensures !failure ==> var all := done + ListSlots(fips, index, coordinates, countyName, items, sentiment);
      points == PointsOf(all, random) && counts == Counts(all)
  {
    points, counts, failure := points0, counts0, false;
    ghost var seen := done;
    var testimonialIndex := 0;
    while testimonialIndex < |items|
      invariant 0 <= testimonialIndex <= |items|
      invariant !HasNull(items[..testimonialIndex])
      invariant seen == done + ListSlots(fips, index, coordinates, countyName, items[..testimonialIndex], sentiment)
      invariant points == PointsOf(seen, random) && counts == Counts(seen)
    {
      var item := items[testimonialIndex];
      if item.JNull? {
        NullAt(items, testimonialIndex);
        failure := true;
        return;
      }
      NoNullStep(items, testimonialIndex);
      var classification := Classification(item);
      var slot := Slot(fips, index, testimonialIndex, sentiment, item, coordinates, countyName);
      ProcessStep(done, seen, fips, index, coordinates, countyName, items, sentiment, testimonialIndex, random);
      assert |points| == |seen|;
      counts := IncrementKey(counts, JsValueString(classification));
      points := points + [MakePoint(slot, |points|, random)];
      seen := seen + [slot];
      testimonialIndex := testimonialIndex + 1;
    }
    assert items[..testimonialIndex] == items;
  }

  /**
   * The `forEach` callback for the county at position `index`: a `TypeError`
   * for a `null` county or item, nothing for a county without a centroid,
   * else its positive then its negative testimonials.
   */
  method ProcessCounty(countyInfo: Json, index: nat, countyCentroids: seq<(string, (real, real))>, random: nat -> real,
                       points0: seq<Point>, counts0: seq<(string, nat)>, ghost done: seq<Slot>)
    returns (points: seq<Point>, counts: seq<(string, nat)>, failure: Option<string>)
    requires points0 == PointsOf(done, random) && counts0 == Counts(done)
    ensures var here := CountySlots(index, countyInfo, countyCentroids);
      && (failure.Some? <==> here.Err?)
      && (here.Err? ==> failure == Some(here.error))
      && (here.Ok? ==> points == PointsOf(done + here.value, random) && counts == Counts(done + here.value))
  {
    points, counts, failure := points0, counts0, None;
    if countyInfo == JNull {
      return points, counts, Some(NULL_COUNTY);
    }
    var fips := Field(countyInfo, "county");
    var coordinates := Assoc.Get(countyCentroids, JsString(fips));
    if coordinates.Some? {
      var name := Field(countyInfo, "county_name");
      var pos, neg := ListItems(Field(countyInfo, POSITIVE)), ListItems(Field(countyInfo, NEGATIVE));
      var nullItem: bool;
      points, counts, nullItem := ProcessVerbatims(pos, "positive", fips, index, coordinates.value, name, random, points, counts, done);
      if nullItem {
        return points, counts, Some(NULL_ITEM);
      }
      ghost var posSlots := ListSlots(fips, index, coordinates.value, name, pos, "positive");
      points, counts, nullItem := ProcessVerbatims(neg, "negative", fips, index, coordinates.value, name, random, points, counts, done + posSlots);
      if nullItem {
        return points, counts, Some(NULL_ITEM);
      }
      ghost var negSlots := ListSlots(fips, index, coordinates.value, name, neg, "negative");
      Regroup(done, posSlots, negSlots);
    } else {
      Regroup(done, [], []);
    }
  }

  /** `loadData`, from the fetched inputs to the hook state or the caught error's message. */
  method LoadData(features: seq<Feature>, testimonialData: Json, random: nat -> real)
    returns (r: Result<Loaded, string>)
    ensures r == Load(features, testimonialData, random)
  {
    var countyCentroids := BuildCentroids(features);
    var valuesResult := ObjectValues(testimonialData);
    if valuesResult.Err? {
      return Err(valuesResult.error);
    }
    var values := valuesResult.value;
    var points: seq<Point> := [];
    var counts: seq<(string, nat)> := Assoc.FromKeys<string, nat>(COUNT_KEYS, 0);
    ghost var done: seq<Slot> := [];
    var index := 0;
    while index < |values|
      invariant 0 <= index <= |values|
      invariant Slots(values[..index], countyCentroids) == Ok(done)
      invariant points == PointsOf(done, random) && counts == Counts(done)
    {
      SlotsStep(values, countyCentroids, index);
      var failure: Option<string>;
      points, counts, failure := ProcessCounty(values[index], index, countyCentroids, random, points, counts, done);
      if failure.Some? {
        FailureEnds(values, countyCentroids, index + 1);
        return Err(failure.value);
      }
      done := done + CountySlots(index, values[index], countyCentroids).value;
      index := index + 1;
    }
    assert values[..index] == values;
    var availableClassifications := Available(counts);
    var initialFilters := Assoc.FromKeys(availableClassifications, false);
    r := Ok(Loaded(points, counts, availableClassifications, initialFilters, [], Index(points), Index([])));
  }

  lemma SlotsStep(values: seq<Json>, centroids: seq<(string, (real, real))>, i: nat)
    requires i < |values|
    ensures var prev := Slots(values[..i], centroids);
      var here := CountySlots(i, values[i], centroids);
      Slots(values[..i + 1], centroids) ==
        if prev.Err? then prev else if here.Err? then here else Ok(prev.value + here.value)
  {
    assert values[..i + 1][..i] == values[..i];
  }

  /** A failure while loading the first `n` counties is the failure of the whole load. */
  lemma {:induction false} FailureEnds(values: seq<Json>, centroids: seq<(string, (real, real))>, n: nat)
    requires n <= |values| && Slots(values[..n], centroids).Err?
    ensures Slots(values, centroids) == Slots(values[..n], centroids)
  {
    if n < |values| {
      assert values[..|values| - 1][..n] == values[..n];
      FailureEnds(values[..|values| - 1], centroids, n);
    } else {
      assert values[..n] == values;
    }
  }

  /** The county loop fails only with the `TypeError` of a `null` county or of a `null` item. */
  lemma {:induction false} SlotsErrors(values: seq<Json>, centroids: seq<(string, (real, real))>)
    ensures Slots(values, centroids).Err? ==> Slots(values, centroids).error in {NULL_COUNTY, NULL_ITEM}
  {
    if values != [] {
      SlotsErrors(values[..|values| - 1], centroids);
    }
  }

  /**
   * Loading fails with the `Object.values` error exactly when the payload
   * is `null`: a failure inside the county loop carries another message.
   */
  lemma NullPayload(features: seq<Feature>, data: Json, random: nat -> real)
    ensures Load(features, data, random) == Err(NULL_DATA) <==> data == JNull
  {
    if data != JNull {
      SlotsErrors(ObjectValues(data).value, Centroids(features));
    }
  }

  // ---------------------------------------------------------------------
  // Filtering.

  /** Some flag is on (`Object.values(activeFilters).some(isActive => isActive)`). */
  predicate AnyActive(flags: seq<(string, bool)>) {
    exists i :: 0 <= i < |flags| && flags[i].1
  }

  /** `activeFilters[point.properties.disease]`. */
  predicate Selected(flags: seq<(string, bool)>, p: Point) {
    Assoc.Get(flags, JsValueString(p.disease)) == Some(true)
  }

  /** The points whose classification is switched on, in their order. */
  function Filtered(points: seq<Point>, flags: seq<(string, bool)>): seq<Point> {
    Lists.Filter(points, (p: Point) => Selected(flags, p))
  }

  /**
   * The filter effect: nothing before the data is loaded; no points and an
   * empty index when no flag is on; otherwise the selected points and an
   * index loaded with them.
   */
  function FilterEffect(testimonialData: Option<seq<Point>>, flags: seq<(string, bool)>): Option<(seq<Point>, ClusterIndex)> {
    if testimonialData.None? then None
    else if !AnyActive(flags) then Some(([], Index([])))
    else
      var filtered := Filtered(testimonialData.value, flags);
      Some((filtered, if |filtered| > 0 then Index(filtered) else Index([])))
  }

  /**
   * Once the data is loaded, the filtered data is always the selected
   * points (the early exit for "no flag on" gives the same answer) and the
   * filtered index holds exactly them.
   */
  lemma FilterEffectSelects(points: seq<Point>, flags: seq<(string, bool)>)
    ensures FilterEffect(Some(points), flags) == Some((Filtered(points, flags), Index(Filtered(points, flags))))
  {
    if !AnyActive(flags) {
      assert forall i :: 0 <= i < |points| ==> !Selected(flags, points[i]);
      Lists.FilterNone(points, (p: Point) => Selected(flags, p));
    }
  }

  /** A point is shown exactly when its classification's flag is on. */
  lemma FilteredMembers(points: seq<Point>, flags: seq<(string, bool)>, p: Point)
    ensures p in Filtered(points, flags) <==> p in points && Selected(flags, p)
  {
    Lists.FilterMembers(points, (p: Point) => Selected(flags, p), p);
  }

  /** `toggleDiseaseFilter`: one flag set, added at the end when new, every other flag unchanged. */
  function ToggleDiseaseFilter(flags: seq<(string, bool)>, classification: string, isActive: bool): (r: seq<(string, bool)>)
    ensures Assoc.Get(r, classification) == Some(isActive)
    ensures forall c :: c != classification ==> Assoc.Get(r, c) == Assoc.Get(flags, c)
    ensures Assoc.HasKey(flags, classification) ==> Assoc.Keys(r) == Assoc.Keys(flags)
    ensures !Assoc.HasKey(flags, classification) ==> r == flags + [(classification, isActive)]
  {
    Assoc.Set(flags, classification, isActive)
  }
}
