/**
 * `analyze_classified_data` of analyze_data.py: counts the testimonials of a
 * classified county table by their `classification` label and reports the
 * labels ordered by count, most frequent first, ties by label.
 *
 * A dictionary item with a `classification` key is counted under the stored
 * value, whatever it is (`null` included); one without the key is counted
 * under "Other"; anything that is not a dictionary is skipped. A label that
 * cannot be a dictionary key (a list or an object) raises `TypeError`, which
 * ends the analysis; so does a tie in the sort between labels Python cannot
 * compare.
 */
module Analyze {
  import opened Base
  import opened Values
  import Assoc

  const POSITIVE := "positive_verbatim"
  const NEGATIVE := "negative_verbatim"
  const CLASSIFICATION := "classification"
  const OTHER := JStr("Other")

  /** The dictionary items of a list, in order. */
  function DictItems(items: seq<Json>): seq<Json>
  {
    if items == [] then []
    else DictItems(items[..|items| - 1]) + (if items[|items| - 1].JObj? then [items[|items| - 1]] else [])
  }

  /** `county.get(key, [])` when it is a list: its dictionary items; nothing otherwise. */
  function VerbatimItems(county: Json, key: string): seq<Json> {
    DictItems(ListItems(Field(county, key)))
  }

  /** The testimonials of one county entry: those of its two lists when it is a dictionary. */
  function CountyTestimonials(county: Json): seq<Json> {
    if county.JObj? then VerbatimItems(county, POSITIVE) + VerbatimItems(county, NEGATIVE) else []
  }

  /** The testimonials that are counted, county by county. */
  function Testimonials(counties: seq<(string, Json)>): seq<Json>
  {
    if counties == [] then []
    else Testimonials(counties[..|counties| - 1]) + CountyTestimonials(counties[|counties| - 1].1)
  }

  /** The label a testimonial is counted under: the stored value when the key is present, "Other" otherwise. */
  function Label(item: Json): Json {
    Field(item, CLASSIFICATION).GetOr(OTHER)
  }

  /** A value Python can use as a dictionary key. */
  predicate Hashable(v: Json) {
    !v.JArr? && !v.JObj?
  }

  /** `classification_counts[tag] += 1` on a `defaultdict(int)`. */
  function Bump(counts: seq<(Json, nat)>, tag: Json): seq<(Json, nat)> {
    Assoc.Increment(counts, tag)
  }

  /** The message of the `TypeError` raised for a list or object label. */
  function UnhashableError(tag: Json): string {
    if tag.JArr? then "unhashable type: 'list'" else "unhashable type: 'dict'"
  }

  /** The counts of the labels of `items`, or the `TypeError` of the first unhashable label. */
  function Tally(items: seq<Json>): Result<seq<(Json, nat)>, string> {
    if items == [] then Ok([])
    else
      var prev := Tally(items[..|items| - 1]);
      var tag := Label(items[|items| - 1]);
      if prev.Err? then prev
      else if !Hashable(tag) then Err(UnhashableError(tag))
      else Ok(Bump(prev.value, tag))
  }

  /** Counting one more testimonial. */
  lemma TallySnoc(items: seq<Json>, item: Json)
    ensures Tally(items + [item]) ==
      if Tally(items).Err? then Tally(items)
      else if !Hashable(Label(item)) then Err(UnhashableError(Label(item)))
      else Ok(Bump(Tally(items).value, Label(item)))
  {
    assert (items + [item])[..|items|] == items;
  }

  /** The number of testimonials counted under `tag`. */
  function Occurrences(items: seq<Json>, tag: Json): nat {
    if items == [] then 0
    else Occurrences(items[..|items| - 1], tag) + (if Label(items[|items| - 1]) == tag then 1 else 0)
  }

  /**
   * The counts add up to the number of testimonials counted: every
   * testimonial is counted exactly once.
   */
  lemma {:induction false} TallyTotal(items: seq<Json>)
    requires Tally(items).Ok?
    ensures Assoc.SumValues(Tally(items).value) == |items|
  {
    if items != [] {
      var init := items[..|items| - 1];
      TallyLast(items);
      TallyTotal(init);
    }
  }

  /** The last step of a successful count. */
  lemma TallyLast(items: seq<Json>)
    requires items != [] && Tally(items).Ok?
    ensures Tally(items[..|items| - 1]).Ok?
    ensures Tally(items).value == Bump(Tally(items[..|items| - 1]).value, Label(items[|items| - 1]))
  {
    var prev, tag := Tally(items[..|items| - 1]), Label(items[|items| - 1]);
    assert Tally(items) == if prev.Err? then prev else if !Hashable(tag) then Err(UnhashableError(tag)) else Ok(Bump(prev.value, tag));
  }

  /**
   * Each label's count is the number of testimonials carrying it, and a
   * label has an entry exactly when some testimonial carries it.
   */
  lemma {:induction false} TallyCounts(items: seq<Json>, tag: Json)
    requires Tally(items).Ok?
    ensures Assoc.Count(Tally(items).value, tag) == Occurrences(items, tag)
    ensures Assoc.HasKey(Tally(items).value, tag) <==> Occurrences(items, tag) > 0
  {
    if items != [] {
      var init, last := items[..|items| - 1], Label(items[|items| - 1]);
      TallyLast(items);
      TallyCounts(init, tag);
      var prev := Tally(init).value;
      assert Tally(items).value == Assoc.Increment(prev, last);
      assert Occurrences(items, tag) == Occurrences(init, tag) + if last == tag then 1 else 0;
      if last == tag {
        Assoc.IncrementCount(prev, last, last);
      } else {
        Assoc.IncrementCount(prev, last, tag);
      }
    }
  }

  /** Once a label has failed, the analysis has failed with that error, whatever follows. */
  lemma {:induction false} TallyErrorSticks(items: seq<Json>, more: seq<Json>)
    requires Tally(items).Err?
    ensures Tally(items + more) == Tally(items)
  {
    if more != [] {
      var init := more[..|more| - 1];
      TallyErrorSticks(items, init);
      SnocRegroup(items, more);
      TallySnoc(items + init, more[|more| - 1]);
    } else {
      TakeAll(items);
    }
  }

  lemma {:induction false} DictItemsAppend(a: seq<Json>, b: seq<Json>)
    ensures DictItems(a + b) == DictItems(a) + DictItems(b)
  {
    if b != [] {
      var init, last := b[..|b| - 1], b[|b| - 1];
      var tail := if last.JObj? then [last] else [];
      DictItemsAppend(a, init);
      assert (a + b)[..|a + b| - 1] == a + init;
      assert (a + b)[|a + b| - 1] == last;
      assert DictItems(a + b) == DictItems(a + init) + tail;
      assert DictItems(b) == DictItems(init) + tail;
    } else {
      assert a + b == a;
    }
  }

  lemma {:induction false} TestimonialsAppend(a: seq<(string, Json)>, b: seq<(string, Json)>)
    ensures Testimonials(a + b) == Testimonials(a) + Testimonials(b)
  {
    if b != [] {
      var init, last := b[..|b| - 1], b[|b| - 1].1;
      TestimonialsAppend(a, init);
      assert (a + b)[..|a + b| - 1] == a + init;
      assert (a + b)[|a + b| - 1].1 == last;
      assert Testimonials(a + b) == Testimonials(a + init) + CountyTestimonials(last);
      assert Testimonials(b) == Testimonials(init) + CountyTestimonials(last);
    } else {
      assert a + b == a;
    }
  }

  /** The testimonial count and the label counts, in first-seen order. */
  datatype Analysis = Analysis(total: nat, counts: seq<(Json, nat)>, sorted: seq<(Json, nat)>)

  // ---------------------------------------------------------------------
  // The report order: `sorted(counts.items(), key=lambda item: (-item[1], item[0]))`.

  /** Labels Python compares by value: `bool`, `int` and `Decimal`. */
  predicate IsNumber(v: Json) {
    v.JBool? || v.JInt? || v.JDecimal?
  }

  /** The exact value of a number label. */
  function NumValue(v: Json): real
    requires IsNumber(v)
  {
    match v
    case JBool(b) => if b then 1.0 else 0.0
    case JInt(i) => i as real
    case JDecimal(t) => DecimalValue(t)
  }

  /** Two labels Python's `<` accepts: two numbers (of any of the three kinds) or two strings. */
  predicate Comparable(a: Json, b: Json) {
    (IsNumber(a) && IsNumber(b)) || (a.JStr? && b.JStr?)
  }

  /** Lexicographic order on code points, as Python compares strings. */
  predicate StrLeq(a: string, b: string) {
    a == [] || (b != [] && (a[0] < b[0] || (a[0] == b[0] && StrLeq(a[1..], b[1..]))))
  }

  lemma {:induction false} StrLeqTotal(a: string, b: string)
    ensures StrLeq(a, b) || StrLeq(b, a)
  {
    if a != [] && b != [] && a[0] == b[0] {
      StrLeqTotal(a[1..], b[1..]);
    }
  }

  /** Groups labels by kind; only within the number and string groups does the order matter. */
  function Rank(v: Json): nat {
    match v
    case JNull => 0
    case JBool(_) => 1
    case JInt(_) => 1
    case JDecimal(_) => 1
    case JStr(_) => 2
    case JArr(_) => 3
    case JObj(_) => 4
  }

  /** The label order: numeric for numbers, lexicographic for strings. */
  predicate KeyLeq(a: Json, b: Json) {
    Rank(a) < Rank(b)
    || (Rank(a) == Rank(b)
        && (if IsNumber(a) then NumValue(a) <= NumValue(b)
            else if a.JStr? then StrLeq(a.s, b.s)
            else true))
  }

  /** Higher counts first; equal counts by label. */
  predicate EntryLeq(x: (Json, nat), y: (Json, nat)) {
    x.1 > y.1 || (x.1 == y.1 && KeyLeq(x.0, y.0))
  }

  lemma EntryLeqTotal(x: (Json, nat), y: (Json, nat))
    ensures EntryLeq(x, y) || EntryLeq(y, x)
  {
    if x.0.JStr? && y.0.JStr? {
      StrLeqTotal(x.0.s, y.0.s);
    }
  }

  predicate Sorted(s: seq<(Json, nat)>) {
    forall i :: 0 <= i < |s| - 1 ==> EntryLeq(s[i], s[i + 1])
  }

  /** Puts `x` into the sorted list `s`, before the first entry it precedes. */
  function Insert(x: (Json, nat), s: seq<(Json, nat)>): (r: seq<(Json, nat)>)
    requires Sorted(s)
    ensures Sorted(r)
    ensures multiset(r) == multiset(s) + multiset{x}
    ensures r != [] && (r[0] == x || (s != [] && r[0] == s[0]))
  {
    if s == [] then [x]
    else if EntryLeq(x, s[0]) then [x] + s
    else
      EntryLeqTotal(x, s[0]);
      var rest := Insert(x, s[1..]);
      assert s == [s[0]] + s[1..];
      [s[0]] + rest
  }

  /** A sorted permutation of the counts. */
  function Sort(s: seq<(Json, nat)>): (r: seq<(Json, nat)>)
    ensures Sorted(r)
    ensures multiset(r) == multiset(s)
  {
    if s == [] then []
    else
      assert s == [s[0]] + s[1..];
      Insert(s[0], Sort(s[1..]))
  }

  /** Two labels with the same count that Python cannot order. */
  predicate IncomparableTie(counts: seq<(Json, nat)>) {
    exists i, j | 0 <= i < |counts| && 0 <= j < |counts| ::
      i != j && counts[i].1 == counts[j].1 && !Comparable(counts[i].0, counts[j].0)
  }

  /**
   * The sorted report. A comparison sort compares every two entries that end
   * up next to each other, so a tie between labels that cannot be compared
   * is bound to raise `TypeError`; otherwise the result is the count entries
   * ordered by count, highest first, and then by label.
   */
  function Report(counts: seq<(Json, nat)>): (r: Result<seq<(Json, nat)>, string>)
    ensures r.Err? <==> IncomparableTie(counts)
    ensures r.Ok? ==> Sorted(r.value) && multiset(r.value) == multiset(counts)
  {
    if IncomparableTie(counts) then Err("'<' not supported between instances")
    else Ok(Sort(counts))
  }

  /** Labels that are all numbers (`bool`, `int` or `Decimal`) are always ordered: the report never fails. */
  lemma NumberLabelsReport(counts: seq<(Json, nat)>)
    requires forall i :: 0 <= i < |counts| ==> IsNumber(counts[i].0)
    ensures Report(counts).Ok?
  {
  }

  /** Two entries out of order are swapped. */
  lemma SortSwapsPair(x: (Json, nat), y: (Json, nat))
    requires !EntryLeq(x, y)
    ensures Sort([x, y]) == [y, x]
  {
    assert [x, y][1..] == [y];
    assert Sort([y]) == [y] by { assert [y][1..] == []; }
    assert [y][1..] == [];
  }

  /**
   * Two number labels with equal counts, whatever their kinds (for instance
   * the decimals 2.5 and 1.5, or 2.5 and the int 2), are reported smaller
   * value first.
   */
  lemma TiedNumbersInOrder(x: Json, y: Json, c: nat)
    requires IsNumber(x) && IsNumber(y) && NumValue(y) < NumValue(x)
    ensures Report([(x, c), (y, c)]) == Ok([(y, c), (x, c)])
  {
    NumberLabelsReport([(x, c), (y, c)]);
    SortSwapsPair((x, c), (y, c));
  }

  /** The labels 2.5 and 1.5, read as decimals and counted once each, are reported 1.5 first. */
  lemma DecimalLabelsOrdered()
    ensures Report([(JDecimal("2.5"), 1), (JDecimal("1.5"), 1)]) == Ok([(JDecimal("1.5"), 1), (JDecimal("2.5"), 1)])
  {
    DecimalSamples();
    TiedNumbersInOrder(JDecimal("2.5"), JDecimal("1.5"), 1);
  }

  /** The decimal 2.5 and the int 2, counted once each, are reported 2 first. */
  lemma DecimalIntLabelsOrdered()
    ensures Report([(JDecimal("2.5"), 1), (JInt(2), 1)]) == Ok([(JInt(2), 1), (JDecimal("2.5"), 1)])
  {
    DecimalSamples();
    TiedNumbersInOrder(JDecimal("2.5"), JInt(2), 1);
  }

  /** The whole analysis of a county table. */
  function Analyze(counties: seq<(string, Json)>): Result<Analysis, string> {
    var ts := Testimonials(counties);
    var tally := Tally(ts);
    if tally.Err? then Err(tally.error)
    else
      var report := Report(tally.value);
      if report.Err? then Err(report.error)
      else Ok(Analysis(|ts|, tally.value, report.value))
  }

  /**
   * What the analysis reports once every label has been counted (Python
   * prints the total and the counts before it sorts): counts that add up to
   * the number of testimonials, one count per label equal to its number of
   * occurrences; the sort succeeds iff no tie is incomparable, and then the
   * report is a sorted permutation of the counts.
   */
  lemma AnalysisCorrect(counties: seq<(string, Json)>, tag: Json)
    requires Tally(Testimonials(counties)).Ok?
    ensures var counts := Tally(Testimonials(counties)).value;
      && Assoc.SumValues(counts) == |Testimonials(counties)|
      && Assoc.Count(counts, tag) == Occurrences(Testimonials(counties), tag)
      && (Analyze(counties).Ok? <==> !IncomparableTie(counts))
      && (Analyze(counties).Ok? ==>
            var a := Analyze(counties).value;
            a.total == |Testimonials(counties)| && a.counts == counts
            && Sorted(a.sorted) && multiset(a.sorted) == multiset(counts))
  {
    TallyTotal(Testimonials(counties));
    TallyCounts(Testimonials(counties), tag);
  }

  /**
   * The analysis fails only where Python raises: a label that cannot be a
   * dictionary key, or two labels with equal counts that cannot be compared.
   */
  lemma AnalyzeFailsOnlyWhen(counties: seq<(string, Json)>)
    ensures var tally := Tally(Testimonials(counties));
      Analyze(counties).Err? <==> tally.Err? || (tally.Ok? && IncomparableTie(tally.value))
  {
  }

  /** A testimonial whose `classification` is present but `null` is counted under `null`, not "Other". */
  lemma NullLabelIsCounted(item: Json)
    requires item.JObj? && Assoc.Get(item.fields, CLASSIFICATION) == Some(JNull)
    ensures Tally([item]) == Ok([(JNull, 1)])
  {
    assert [item][..0] == [];
  }

  /** A testimonial without a `classification` key is counted under "Other". */
  lemma MissingLabelIsOther(item: Json)
    requires item.JObj? && !Assoc.HasKey(item.fields, CLASSIFICATION)
    ensures Tally([item]) == Ok([(OTHER, 1)])
  {
    assert [item][..0] == [];
  }

  // ---------------------------------------------------------------------
  // The counting loop.

  /** Counts the dictionary items of one verbatim list on top of the testimonials `done`. */
  method CountVerbatims(items: seq<Json>, ghost done: seq<Json>, total0: nat, counts0: seq<(Json, nat)>)
    returns (total: nat, counts: seq<(Json, nat)>, failure: Option<string>)
    requires Tally(done) == Ok(counts0) && total0 == |done|
    ensures failure.None? ==> Tally(done + DictItems(items)) == Ok(counts) && total == |done + DictItems(items)|
    ensures failure.Some? ==> Tally(done + DictItems(items)) == Err(failure.value)
  {
    total, counts, failure := total0, counts0, None;
    ghost var seen := done;
    var i := 0;
    while i < |items|
      invariant 0 <= i <= |items|
      invariant seen == done + DictItems(items[..i])
      invariant Tally(seen) == Ok(counts) && total == |seen|
    {
      var testimonial := items[i];
      DictItemsStep(items, i);
      if testimonial.JObj? {
        var classification := Label(testimonial);
        if !Hashable(classification) {
          failure := Some(UnhashableError(classification));
          UnhashableEnds(done, items, i);
          return;
        }
        CountStep(seen, testimonial, counts);
        seen := seen + [testimonial];
        total := total + 1;
        counts := Bump(counts, classification);
      }
      i := i + 1;
    }
    assert items[..i] == items;
  }

  lemma DictItemsStep(items: seq<Json>, i: nat)
    requires i < |items|
    ensures DictItems(items[..i + 1]) == DictItems(items[..i]) + (if items[i].JObj? then [items[i]] else [])
  {
    assert items[..i + 1][..i] == items[..i];
  }

  /** Counting one more testimonial with a hashable label. */
  lemma CountStep(seen: seq<Json>, item: Json, counts: seq<(Json, nat)>)
    requires Tally(seen) == Ok(counts) && Hashable(Label(item))
    ensures Tally(seen + [item]) == Ok(Bump(counts, Label(item)))
  {
    TallySnoc(seen, item);
  }

  /** An unhashable label at `items[i]` ends the count of the whole list with its error. */
  lemma UnhashableEnds(done: seq<Json>, items: seq<Json>, i: nat)
    requires i < |items| && items[i].JObj? && !Hashable(Label(items[i]))
    requires Tally(done + DictItems(items[..i])).Ok?
    ensures Tally(done + DictItems(items)) == Err(UnhashableError(Label(items[i])))
  {
    var seen := done + DictItems(items[..i]) + [items[i]];
    TallySnoc(done + DictItems(items[..i]), items[i]);
    TallyErrorSticks(seen, DictItems(items[i + 1..]));
    SplitAtDict(done, items, i);
  }

  /** The dictionary items of a list, cut at a dictionary item. */
  lemma SplitAtDict(done: seq<Json>, items: seq<Json>, i: nat)
    requires i < |items| && items[i].JObj?
    ensures done + DictItems(items) == (done + DictItems(items[..i]) + [items[i]]) + DictItems(items[i + 1..])
  {
    var front, back := items[..i + 1], items[i + 1..];
    DictItemsStep(items, i);
    TakeDrop(items, i + 1);
    DictItemsAppend(front, back);
    Regroup4(done, DictItems(items[..i]), [items[i]], DictItems(back));
  }

  lemma Regroup4<T>(a: seq<T>, b: seq<T>, c: seq<T>, d: seq<T>)
    ensures a + ((b + c) + d) == (a + b + c) + d
  {
  }

  /**
   * `analyze_classified_data`: the nested counting loop over counties and
   * their two lists, then the sorted report; `Err` carries the message of
   * the exception that ends the analysis.
   */
  method AnalyzeClassifiedData(counties: seq<(string, Json)>) returns (r: Result<Analysis, string>)
    ensures r == Analyze(counties)
  {
    var total: nat := 0;
    var counts: seq<(Json, nat)> := [];
    var i := 0;
    while i < |counties|
      invariant 0 <= i <= |counties|
      invariant Tally(Testimonials(counties[..i])) == Ok(counts) && total == |Testimonials(counties[..i])|
    {
      ghost var done := Testimonials(counties[..i]);
      TestimonialsStep(counties, i);
      var failure: Option<string>;
      total, counts, failure := CountCounty(counties[i].1, done, total, counts);
      if failure.Some? {
        TakeAll(Testimonials(counties[..i + 1]));
        FailureEnds(counties, i + 1, Testimonials(counties[..i + 1]), []);
        r := Err(failure.value);
        return;
      }
      i := i + 1;
    }
    TakeAll(counties);
    var sorted := Report(counts);
    if sorted.Err? {
      r := Err(sorted.error);
    } else {
      r := Ok(Analysis(total, counts, sorted.value));
    }
  }

  /**
   * The body of the county loop: a dictionary's positive list, then its
   * negative list, on top of the testimonials `done`; any other value is
   * skipped.
   */
  method CountCounty(county: Json, ghost done: seq<Json>, total0: nat, counts0: seq<(Json, nat)>)
    returns (total: nat, counts: seq<(Json, nat)>, failure: Option<string>)
    requires Tally(done) == Ok(counts0) && total0 == |done|
    ensures failure.None? ==>
      Tally(done + CountyTestimonials(county)) == Ok(counts) && total == |done + CountyTestimonials(county)|
    ensures failure.Some? ==> Tally(done + CountyTestimonials(county)) == Err(failure.value)
  {
    total, counts, failure := total0, counts0, None;
    if county.JObj? {
      ghost var pos, neg := VerbatimItems(county, POSITIVE), VerbatimItems(county, NEGATIVE);
      Regroup(done, pos, neg);
      total, counts, failure := CountVerbatims(ListItems(Field(county, POSITIVE)), done, total, counts);
      if failure.Some? {
        TallyErrorSticks(done + pos, neg);
        return;
      }
      total, counts, failure := CountVerbatims(ListItems(Field(county, NEGATIVE)), done + pos, total, counts);
    } else {
      TakeAll(done);
    }
  }

  lemma TestimonialsStep(counties: seq<(string, Json)>, i: nat)
    requires i < |counties|
    ensures Testimonials(counties[..i + 1]) == Testimonials(counties[..i]) + CountyTestimonials(counties[i].1)
  {
    assert counties[..i + 1][..i] == counties[..i];
  }

  lemma TestimonialsSplit(counties: seq<(string, Json)>, n: nat)
    requires n <= |counties|
    ensures Testimonials(counties) == Testimonials(counties[..n]) + Testimonials(counties[n..])
  {
    TakeDrop(counties, n);
    TestimonialsAppend(counties[..n], counties[n..]);
  }

  /** A failure while counting the first `n` counties is the failure of the whole analysis. */
  lemma FailureEnds(counties: seq<(string, Json)>, n: nat, failed: seq<Json>, more: seq<Json>)
    requires n <= |counties|
    requires Testimonials(counties[..n]) == failed + more
    requires Tally(failed).Err?
    ensures Tally(Testimonials(counties)) == Tally(failed)
  {
    var rest := Testimonials(counties[n..]);
    TestimonialsSplit(counties, n);
    Regroup(failed, more, rest);
    TallyErrorSticks(failed, more + rest);
  }

  /** Concatenation regrouped, stated apart from any function so that the solver proves it cheaply. */
  lemma Regroup(a: seq<Json>, b: seq<Json>, c: seq<Json>)
    ensures a + (b + c) == a + b + c
    ensures a + b + c + [] == a + b + c
  {
  }

  lemma SnocRegroup<T>(a: seq<T>, b: seq<T>)
    requires b != []
    ensures a + b == (a + b[..|b| - 1]) + [b[|b| - 1]]
  {
  }

  lemma TakeAll<T>(s: seq<T>)
    ensures s[..|s|] == s
    ensures s + [] == s
  {
  }
}
