/**
 * `process_json_stream` of classify_and_rewrite.py: reads the county table
 * entry by entry, adds a `classification` to every testimonial object of the
 * `positive_verbatim` and `negative_verbatim` lists, writes each county back
 * out as one member of a JSON object, and counts counties, classified
 * testimonials and anomalies.
 *
 * The parser hands over `(fips, county)` pairs in document order; the JSON
 * encoder is a parameter (`Encoder.key` for the quoted key, `Encoder.value`
 * for the compact value), so the framing of the output is modelled exactly
 * while the character-level encoding is not. The classifier is a parameter
 * too: `ClassifyAndRewrite` runs the stream with `classify_testimonial`,
 * and the properties below hold for any classifier.
 */
module Rewrite {
  import opened Base
  import opened Text
  import opened Values
  import Assoc
  import Classify

  const POSITIVE := "positive_verbatim"
  const NEGATIVE := "negative_verbatim"
  const CLASSIFICATION := "classification"

  /** A classifier of (disease field, text) pairs. */
  type Classifier = (Json, Json) -> string

  /** JSON text encoders: for the quoted county key, and for a compact value. */
  datatype Encoder = Encoder(key: string -> string, value: Json -> string)

  /** The label a testimonial object gets, read from `disease` and `nn_verbatim` (`None` when missing). */
  function ClassifyFields(classify: Classifier, fields: seq<(string, Json)>): string {
    classify(Assoc.Get(fields, "disease").GetOr(JNull), Assoc.Get(fields, "nn_verbatim").GetOr(JNull))
  }

  /**
   * `testimonial['classification'] = tag` on a copy of an object: the key is
   * replaced in place when present, appended otherwise; every other key keeps
   * its value.
   */
  function Classified(item: Json, tag: string): (r: Json)
    requires item.JObj?
    ensures r.JObj? && Field(r, CLASSIFICATION) == Some(JStr(tag))
    ensures forall k {:trigger Field(r, k)} :: k != CLASSIFICATION ==> Field(r, k) == Field(item, k)
    ensures Assoc.HasKey(item.fields, CLASSIFICATION) ==> Assoc.Keys(r.fields) == Assoc.Keys(item.fields)
    ensures !Assoc.HasKey(item.fields, CLASSIFICATION) ==> r.fields == item.fields + [(CLASSIFICATION, JStr(tag))]
  {
    JObj(Assoc.Set(item.fields, CLASSIFICATION, JStr(tag)))
  }

  /**
   * One list item: a testimonial object gets the label the classifier gives
   * it; anything else is kept as is.
   */
  function RewriteItem(classify: Classifier, item: Json): (r: Json)
    ensures !item.JObj? ==> r == item
    ensures item.JObj? ==> r.JObj? && Field(r, CLASSIFICATION) == Some(JStr(ClassifyFields(classify, item.fields)))
    ensures item.JObj? ==> forall k {:trigger Field(r, k)} :: k != CLASSIFICATION ==> Field(r, k) == Field(item, k)
  {
    if item.JObj? then Classified(item, ClassifyFields(classify, item.fields)) else item
  }

  /** The number of objects (Python `Mapping`s) in a list. */
  function MappingCount(items: seq<Json>): (n: nat)
    ensures n <= |items|
  {
    if items == [] then 0
    else MappingCount(items[..|items| - 1]) + (if items[|items| - 1].JObj? then 1 else 0)
  }

  /** A rewritten list with the testimonials it classified and the items it could not. */
  datatype ListOutcome = ListOutcome(items: seq<Json>, processed: nat, errors: nat)

  /**
   * The loop over one verbatim list: every item is rewritten in place, every
   * object counts as processed and every other item as an error.
   */
  function RewriteItems(classify: Classifier, items: seq<Json>): (r: ListOutcome)
    ensures |r.items| == |items|
    ensures r.processed + r.errors == |items|
  {
    if items == [] then ListOutcome([], 0, 0)
    else
      var prev := RewriteItems(classify, items[..|items| - 1]);
      var x := items[|items| - 1];
      if x.JObj? then ListOutcome(prev.items + [RewriteItem(classify, x)], prev.processed + 1, prev.errors)
      else ListOutcome(prev.items + [x], prev.processed, prev.errors + 1)
  }

  /** The list keeps its order with every item rewritten, and the processed items are its objects. */
  lemma {:induction false} RewriteItemsCorrect(classify: Classifier, items: seq<Json>)
    ensures var r := RewriteItems(classify, items);
      && (forall i :: 0 <= i < |items| ==> r.items[i] == RewriteItem(classify, items[i]))
      && r.processed == MappingCount(items)
  {
    if items != [] {
      var init, x := items[..|items| - 1], items[|items| - 1];
      RewriteItemsCorrect(classify, init);
      var prev, r := RewriteItems(classify, init), RewriteItems(classify, items);
      assert r.items == prev.items + [RewriteItem(classify, x)];
      forall i | 0 <= i < |items|
        ensures r.items[i] == RewriteItem(classify, items[i])
      {
        if i < |init| {
          assert r.items[i] == prev.items[i] && items[i] == init[i];
        }
      }
    }
  }

  /** A rewritten county with its counts. */
  datatype CountyOutcome = CountyOutcome(county: seq<(string, Json)>, processed: nat, errors: nat)

  /**
   * One verbatim field of a county: a list is rewritten and stored back
   * under the same key; a missing or `null` field is left alone; anything
   * else is left alone and counted as an error.
   */
  function RewriteField(classify: Classifier, county: seq<(string, Json)>, key: string): (r: CountyOutcome)
    ensures forall k {:trigger Assoc.Get(r.county, k)} :: k != key ==> Assoc.Get(r.county, k) == Assoc.Get(county, k)
  {
    var orig := Assoc.Get(county, key);
    if orig.Some? && orig.value.JArr? then
      var lr := RewriteItems(classify, orig.value.items);
      CountyOutcome(Assoc.Set(county, key, JArr(lr.items)), lr.processed, lr.errors)
    else if orig.Some? && orig.value != JNull then CountyOutcome(county, 0, 1)
    else CountyOutcome(county, 0, 0)
  }

  /** A county object: `positive_verbatim` first, then `negative_verbatim`. */
  function RewriteCounty(classify: Classifier, county: seq<(string, Json)>): CountyOutcome {
    var p := RewriteField(classify, county, POSITIVE);
    var n := RewriteField(classify, p.county, NEGATIVE);
    CountyOutcome(n.county, p.processed + n.processed, p.errors + n.errors)
  }

  /**
   * `decimal_default`: the fallback the encoder calls for a value it cannot
   * serialise. A `Decimal` becomes its text; anything else raises `TypeError`.
   */
  function DecimalDefault(v: Json): (r: Result<string, string>)
    ensures r.Ok? <==> v.JDecimal?
    ensures r.Ok? ==> r.value == v.text
    ensures r.Err? ==> StartsWith(r.error, "Object of type ")
  {
    if v.JDecimal? then Ok(v.text)
    else Err("Object of type " + PyTypeName(v) + " is not JSON serializable")
  }

  /** The first failure among the results, if any. */
  function FirstError<T>(rs: seq<Result<T, string>>): (r: Option<string>)
    ensures r.None? <==> forall k :: 0 <= k < |rs| ==> rs[k].Ok?
  {
    if rs == [] then None
    else if rs[0].Err? then Some(rs[0].error)
    else FirstError(rs[1..])
  }

  /**
   * `json.dumps(v, default=decimal_default)` at the level of values: the
   * value that is actually written, or the `TypeError` raised by the
   * fallback, the first one in document order.
   */
  function Dumps(v: Json): Result<Json, string> {
    match v
    case JDecimal(_) =>
      (match DecimalDefault(v)
       case Ok(s) => Ok(JStr(s))
       case Err(e) => Err(e))
    case JArr(items) =>
      var rs := seq(|items|, k requires 0 <= k < |items| => Dumps(items[k]));
      (match FirstError(rs)
       case Some(e) => Err(e)
       case None => Ok(JArr(seq(|rs|, k requires 0 <= k < |rs| => rs[k].value))))
    case JObj(fields) =>
      var rs := seq(|fields|, k requires 0 <= k < |fields| => Dumps(fields[k].1));
      (match FirstError(rs)
       case Some(e) => Err(e)
       case None => Ok(JObj(seq(|rs|, k requires 0 <= k < |rs| => (fields[k].0, rs[k].value)))))
    case _ => Ok(v)
  }

  /** No `Decimal` is left in a value. */
  predicate NoDecimals(v: Json) {
    match v
    case JDecimal(_) => false
    case JArr(items) => forall k :: 0 <= k < |items| ==> NoDecimals(items[k])
    case JObj(fields) => forall k :: 0 <= k < |fields| ==> NoDecimals(fields[k].1)
    case _ => true
  }

  /**
   * Every parsed value can be written, with no `Decimal` left in it: the
   * fallback is only ever called on a `Decimal`, which it turns into a
   * string, so the encoder never raises and the `TypeError` branch of the
   * writer is never taken.
   */
  lemma {:induction false} DumpsNeverFails(v: Json)
    ensures Dumps(v).Ok? && NoDecimals(Dumps(v).value)
  {
    match v
    case JArr(items) =>
      forall k | 0 <= k < |items| ensures Dumps(items[k]).Ok? && NoDecimals(Dumps(items[k]).value) {
        DumpsNeverFails(items[k]);
      }
    case JObj(fields) =>
      forall k | 0 <= k < |fields| ensures Dumps(fields[k].1).Ok? && NoDecimals(Dumps(fields[k].1).value) {
        DumpsNeverFails(fields[k].1);
      }
    case _ =>
  }

  /** The writer's state: the text so far, whether no county was written yet, and the three counters. */
  datatype Progress = Progress(out: string, first: bool, counties: nat, testimonials: nat, errors: nat)

  /** The text written for one county. */
  function Entry(enc: Encoder, fips: string, v: Json): string {
    "  " + enc.key(fips) + ": " + enc.value(v)
  }

  /**
   * One county of the stream. A non-object is counted and skipped. An object
   * is rewritten; the separator is written before the value is encoded, so a
   * county that failed to encode would leave its comma behind.
   */
  function Step(classify: Classifier, enc: Encoder, s: Progress, fips: string, county: Json): (r: Progress)
    ensures r.counties == s.counties + 1
    ensures !county.JObj? ==> r == s.(counties := s.counties + 1, errors := s.errors + 1)
  {
    var s1 := s.(counties := s.counties + 1);
    if !county.JObj? then s1.(errors := s1.errors + 1)
    else
      var rc := RewriteCounty(classify, county.fields);
      var s2 := s1.(testimonials := s1.testimonials + rc.processed, errors := s1.errors + rc.errors);
      var sep := if s2.first then "" else ",\n";
      var dumped := Dumps(JObj(rc.county));
      if dumped.Ok? then s2.(out := s2.out + sep + Entry(enc, fips, dumped.value), first := false)
      else s2.(out := s2.out + sep, errors := s2.errors + 1)
  }

  const Start := Progress("{\n", true, 0, 0, 0)

  /** The writer's state after the first `|counties|` entries. */
  function Run(classify: Classifier, enc: Encoder, counties: seq<(string, Json)>): (r: Progress)
    ensures r.counties == |counties|
  {
    if counties == [] then Start
    else
      var last := counties[|counties| - 1];
      Step(classify, enc, Run(classify, enc, counties[..|counties| - 1]), last.0, last.1)
  }

  lemma RunSnoc(classify: Classifier, enc: Encoder, counties: seq<(string, Json)>, i: nat)
    requires i < |counties|
    ensures Run(classify, enc, counties[..i + 1])
      == Step(classify, enc, Run(classify, enc, counties[..i]), counties[i].0, counties[i].1)
  {
    assert counties[..i + 1][..i] == counties[..i];
  }

  /** The whole output file. */
  function Output(classify: Classifier, enc: Encoder, counties: seq<(string, Json)>): string {
    Run(classify, enc, counties).out + "\n}"
  }

  /** The entries written: one per object county, rewritten and with its decimals as strings. */
  function Written(classify: Classifier, enc: Encoder, counties: seq<(string, Json)>): seq<string> {
    if counties == [] then []
    else
      var prev := Written(classify, enc, counties[..|counties| - 1]);
      var last := counties[|counties| - 1];
      if last.1.JObj? then
        var dumped := Dumps(JObj(RewriteCounty(classify, last.1.fields).county));
        prev + [Entry(enc, last.0, if dumped.Ok? then dumped.value else JNull)]
      else prev
  }

  /**
   * The output is a well-formed JSON object text: "{\n", the entries of the
   * object counties in input order separated by ",\n", then "\n}". Non-object
   * counties leave no trace, and no stray comma is ever written.
   */
  lemma {:induction false} OutputIsJoinedEntries(classify: Classifier, enc: Encoder, counties: seq<(string, Json)>)
    ensures Run(classify, enc, counties).first <==> Written(classify, enc, counties) == []
    ensures Run(classify, enc, counties).out == "{\n" + Join(Written(classify, enc, counties), ",\n")
    ensures Output(classify, enc, counties) == "{\n" + Join(Written(classify, enc, counties), ",\n") + "\n}"
  {
    if counties == [] {
      assert Join([], ",\n") == "";
      assert "{\n" + "" == "{\n";
    } else {
      var init := counties[..|counties| - 1];
      var last := counties[|counties| - 1];
      OutputIsJoinedEntries(classify, enc, init);
      var s := Run(classify, enc, init);
      var prev := Written(classify, enc, init);
      if last.1.JObj? {
        var county := JObj(RewriteCounty(classify, last.1.fields).county);
        DumpsNeverFails(county);
        var e := Entry(enc, last.0, Dumps(county).value);
        assert Written(classify, enc, counties) == prev + [e];
        if prev != [] {
          JoinSnoc(prev, e, ",\n");
          assert Run(classify, enc, counties).out == s.out + ",\n" + e;
        } else {
          assert prev + [e] == [e];
          assert Run(classify, enc, counties).out == s.out + "" + e;
        }
      }
    }
  }

  /** Every object item of a present list is classified; what else a field holds is counted as an error. */
  function FieldErrors(v: Option<Json>): nat {
    if v.Some? && v.value.JArr? then |v.value.items| - MappingCount(v.value.items)
    else if v.Some? && v.value != JNull then 1
    else 0
  }

  /**
   * A county's counts: every object in its two verbatim lists is classified;
   * every other item of those lists, and each of the two fields that is
   * present, not `null` and not a list, counts as an error. Rewriting the
   * positive list leaves the negative one untouched before it is read.
   */
  lemma RewriteCountyCounts(classify: Classifier, county: seq<(string, Json)>)
    ensures RewriteCounty(classify, county).processed
      == MappingCount(ListItems(Assoc.Get(county, POSITIVE))) + MappingCount(ListItems(Assoc.Get(county, NEGATIVE)))
    ensures RewriteCounty(classify, county).errors
      == FieldErrors(Assoc.Get(county, POSITIVE)) + FieldErrors(Assoc.Get(county, NEGATIVE))
  {
    var p := RewriteField(classify, county, POSITIVE);
    assert Assoc.Get(p.county, NEGATIVE) == Assoc.Get(county, NEGATIVE);
    RewriteFieldCounts(classify, county, POSITIVE);
    RewriteFieldCounts(classify, p.county, NEGATIVE);
  }

  lemma RewriteFieldCounts(classify: Classifier, county: seq<(string, Json)>, key: string)
    ensures RewriteField(classify, county, key).processed == MappingCount(ListItems(Assoc.Get(county, key)))
    ensures RewriteField(classify, county, key).errors == FieldErrors(Assoc.Get(county, key))
  {
    var orig := Assoc.Get(county, key);
    if orig.Some? && orig.value.JArr? {
      RewriteItemsCorrect(classify, orig.value.items);
    }
  }

  /**
   * A county's verbatim lists after the rewrite: same length, every
   * testimonial object classified, other items unchanged; every other field
   * of the county as it was.
   */
  lemma RewriteCountyLists(classify: Classifier, county: seq<(string, Json)>, key: string)
    requires key == POSITIVE || key == NEGATIVE
    ensures forall k :: k != POSITIVE && k != NEGATIVE ==>
      Assoc.Get(RewriteCounty(classify, county).county, k) == Assoc.Get(county, k)
    ensures var before := Assoc.Get(county, key);
      var after := Assoc.Get(RewriteCounty(classify, county).county, key);
      (before.Some? && before.value.JArr? ==>
         after.Some? && after.value.JArr? && |after.value.items| == |before.value.items|
         && forall i :: 0 <= i < |before.value.items| ==>
              after.value.items[i] == RewriteItem(classify, before.value.items[i]))
      && (!(before.Some? && before.value.JArr?) ==> after == before)
  {
    RewriteCountyKeeps(classify, county);
    var p := RewriteField(classify, county, POSITIVE);
    assert Assoc.Get(p.county, NEGATIVE) == Assoc.Get(county, NEGATIVE);
    var after := Assoc.Get(RewriteCounty(classify, county).county, key);
    if key == POSITIVE {
      assert after == Assoc.Get(p.county, POSITIVE);
      RewriteFieldList(classify, county, POSITIVE);
    } else {
      RewriteFieldList(classify, p.county, NEGATIVE);
    }
  }

  /** The fields of a county other than the two verbatim lists are not touched. */
  lemma RewriteCountyKeeps(classify: Classifier, county: seq<(string, Json)>)
    ensures forall k :: k != POSITIVE && k != NEGATIVE ==>
      Assoc.Get(RewriteCounty(classify, county).county, k) == Assoc.Get(county, k)
  {
    var p := RewriteField(classify, county, POSITIVE);
    var n := RewriteField(classify, p.county, NEGATIVE);
    assert RewriteCounty(classify, county).county == n.county;
  }

  /** The list under `key` after rewriting that field: each item rewritten in place, or the value as it was. */
  lemma RewriteFieldList(classify: Classifier, county: seq<(string, Json)>, key: string)
    ensures var before := Assoc.Get(county, key);
      var after := Assoc.Get(RewriteField(classify, county, key).county, key);
      (before.Some? && before.value.JArr? ==>
         after.Some? && after.value.JArr? && |after.value.items| == |before.value.items|
         && forall i :: 0 <= i < |before.value.items| ==>
              after.value.items[i] == RewriteItem(classify, before.value.items[i]))
      && (!(before.Some? && before.value.JArr?) ==> after == before)
  {
    var before := Assoc.Get(county, key);
    if before.Some? && before.value.JArr? {
      RewriteItemsCorrect(classify, before.value.items);
    }
  }

  /** With `classify_testimonial` as the classifier, every label written is one of the target categories. */
  lemma LabelsAreTargetCategories(item: Json)
    requires item.JObj?
    ensures Field(RewriteItem(Classify.ClassifyTestimonial, item), CLASSIFICATION).value.s in Classify.TargetNames
  {
    var d := Assoc.Get(item.fields, "disease").GetOr(JNull);
    var t := Assoc.Get(item.fields, "nn_verbatim").GetOr(JNull);
    var tag := Classify.ClassifyTestimonial(d, t);
    assert ClassifyFields(Classify.ClassifyTestimonial, item.fields) == tag;
  }

  /** Rewrites one verbatim list, item by item. */
  method RewriteVerbatims(classify: Classifier, items: seq<Json>) returns (rewritten: seq<Json>, processed: nat, errors: nat)
    ensures ListOutcome(rewritten, processed, errors) == RewriteItems(classify, items)
  {
    rewritten, processed, errors := [], 0, 0;
    var i := 0;
    while i < |items|
      invariant 0 <= i <= |items|
      invariant ListOutcome(rewritten, processed, errors) == RewriteItems(classify, items[..i])
    {
      var testimonial := items[i];
      RewriteItemsStep(classify, items, i);
      if testimonial.JObj? {
        var disease := Assoc.Get(testimonial.fields, "disease").GetOr(JNull);
        var text := Assoc.Get(testimonial.fields, "nn_verbatim").GetOr(JNull);
        var classification := classify(disease, text);
        var modified := Classified(testimonial, classification);
        rewritten := rewritten + [modified];
        processed := processed + 1;
      } else {
        rewritten := rewritten + [testimonial];
        errors := errors + 1;
      }
      i := i + 1;
    }
    assert items[..i] == items;
  }

  /** One more item extends the rewritten list by that item's rewrite. */
  lemma RewriteItemsStep(classify: Classifier, items: seq<Json>, i: nat)
    requires i < |items|
    ensures var prev := RewriteItems(classify, items[..i]);
      RewriteItems(classify, items[..i + 1]) ==
        if items[i].JObj? then ListOutcome(prev.items + [RewriteItem(classify, items[i])], prev.processed + 1, prev.errors)
        else ListOutcome(prev.items + [items[i]], prev.processed, prev.errors + 1)
  {
    assert items[..i + 1][..i] == items[..i];
  }

  /** Rewrites one verbatim field of a county. */
  method RewriteVerbatimField(classify: Classifier, county: seq<(string, Json)>, key: string) returns (r: CountyOutcome)
    ensures r == RewriteField(classify, county, key)
  {
    var orig := Assoc.Get(county, key);
    if orig.Some? && orig.value.JArr? {
      var rewritten, processed, errors := RewriteVerbatims(classify, orig.value.items);
      r := CountyOutcome(Assoc.Set(county, key, JArr(rewritten)), processed, errors);
    } else if orig.Some? && orig.value != JNull {
      r := CountyOutcome(county, 0, 1);
    } else {
      r := CountyOutcome(county, 0, 0);
    }
  }

  /** Rewrites the two verbatim fields of a county object, positive first. */
  method RewriteCountyData(classify: Classifier, county: seq<(string, Json)>) returns (r: CountyOutcome)
    ensures r == RewriteCounty(classify, county)
  {
    var pos := RewriteVerbatimField(classify, county, POSITIVE);
    var neg := RewriteVerbatimField(classify, pos.county, NEGATIVE);
    r := CountyOutcome(neg.county, pos.processed + neg.processed, pos.errors + neg.errors);
    RewriteCountyFields(classify, county, pos, neg);
  }

  /** A county's outcome is made of its two field outcomes, the negative one taken on the rewritten county. */
  lemma RewriteCountyFields(classify: Classifier, county: seq<(string, Json)>, pos: CountyOutcome, neg: CountyOutcome)
    requires pos == RewriteField(classify, county, POSITIVE) && neg == RewriteField(classify, pos.county, NEGATIVE)
    ensures RewriteCounty(classify, county) == CountyOutcome(neg.county, pos.processed + neg.processed, pos.errors + neg.errors)
  {
  }

  /**
   * The body of the stream loop for one county: count it; skip a non-object
   * as an error; otherwise rewrite it, add its counts, write the separator
   * unless it is the first county, then its entry, or count an error if it
   * cannot be encoded.
   */
  method WriteCounty(classify: Classifier, enc: Encoder, s: Progress, fips: string, countyData: Json) returns (t: Progress)
    ensures t == Step(classify, enc, s, fips, countyData)
  {
    t := s.(counties := s.counties + 1);
    if !countyData.JObj? {
      t := t.(errors := t.errors + 1);
    } else {
      var modified := RewriteCountyData(classify, countyData.fields);
      t := t.(testimonials := t.testimonials + modified.processed, errors := t.errors + modified.errors);
      if !t.first {
        t := t.(out := t.out + ",\n");
      } else {
        assert t.out + "" == t.out;
      }
      var dumped := Dumps(JObj(modified.county));
      if dumped.Ok? {
        t := t.(out := t.out + Entry(enc, fips, dumped.value), first := false);
      } else {
        t := t.(errors := t.errors + 1);
      }
    }
  }

  /**
   * The stream loop with a given classifier: the output text and the three
   * counters it reports, as the writer's state after the whole stream.
   */
  method ProcessJsonStream(classify: Classifier, enc: Encoder, counties: seq<(string, Json)>)
    returns (out: string, processedCounties: nat, processedTestimonials: nat, errorCount: nat)
    ensures out == Output(classify, enc, counties)
    ensures processedCounties == |counties|
    ensures processedTestimonials == Run(classify, enc, counties).testimonials
    ensures errorCount == Run(classify, enc, counties).errors
  {
    out := "{\n";
    processedCounties, processedTestimonials, errorCount := 0, 0, 0;
    var firstCounty := true;
    var i := 0;
    while i < |counties|
      invariant 0 <= i <= |counties|
      invariant Progress(out, firstCounty, processedCounties, processedTestimonials, errorCount)
        == Run(classify, enc, counties[..i])
    {
      RunSnoc(classify, enc, counties, i);
      var next := WriteCounty(classify, enc, Progress(out, firstCounty, processedCounties, processedTestimonials, errorCount),
                              counties[i].0, counties[i].1);
      out, firstCounty := next.out, next.first;
      processedCounties, processedTestimonials, errorCount := next.counties, next.testimonials, next.errors;
      i := i + 1;
    }
    assert counties[..i] == counties;
    out := out + "\n}";
  }

  /**
   * The testimonial and error totals the stream reports, county by county:
   * an object county adds its rewrite's processed and error counts, any
   * other entry adds one error.
   */
  function Totals(classify: Classifier, counties: seq<(string, Json)>): (nat, nat) {
    if counties == [] then (0, 0)
    else
      var prev := Totals(classify, counties[..|counties| - 1]);
      var last := counties[|counties| - 1].1;
      if last.JObj? then
        var rc := RewriteCounty(classify, last.fields);
        (prev.0 + rc.processed, prev.1 + rc.errors)
      else (prev.0, prev.1 + 1)
  }

  /** The writer's two totals are the sums over the counties; encoding never adds an error. */
  lemma {:induction false} RunTotals(classify: Classifier, enc: Encoder, counties: seq<(string, Json)>)
    ensures Run(classify, enc, counties).testimonials == Totals(classify, counties).0
    ensures Run(classify, enc, counties).errors == Totals(classify, counties).1
  {
    if counties != [] {
      var last := counties[|counties| - 1].1;
      RunTotals(classify, enc, counties[..|counties| - 1]);
      if last.JObj? {
        DumpsNeverFails(JObj(RewriteCounty(classify, last.fields).county));
      }
    }
  }

  /** `process_json_stream`: the stream loop with `classify_testimonial` as the classifier. */
  method ClassifyAndRewrite(enc: Encoder, counties: seq<(string, Json)>)
    returns (out: string, processedCounties: nat, processedTestimonials: nat, errorCount: nat)
    ensures out == "{\n" + Join(Written(Classify.ClassifyTestimonial, enc, counties), ",\n") + "\n}"
    ensures processedCounties == |counties|
    ensures processedTestimonials == Run(Classify.ClassifyTestimonial, enc, counties).testimonials
    ensures errorCount == Run(Classify.ClassifyTestimonial, enc, counties).errors
    ensures (processedTestimonials, errorCount) == Totals(Classify.ClassifyTestimonial, counties)
  {
    out, processedCounties, processedTestimonials, errorCount :=
      ProcessJsonStream(Classify.ClassifyTestimonial, enc, counties);
    OutputIsJoinedEntries(Classify.ClassifyTestimonial, enc, counties);
    RunTotals(Classify.ClassifyTestimonial, enc, counties);
  }
}
