/**
 * `classify_testimonial` of classify_and_rewrite.py: a deterministic keyword
 * classifier that maps a testimonial's disease field and free text to one of
 * eight target categories.
 *
 * Stage 1 looks for keywords in the disease field, category by category in
 * `TARGET_CATEGORIES` order. Stage 2 looks in the free text: Psoriatic
 * Arthritis first, then Plaque Psoriasis, then the remaining categories, with
 * confirming words required when the disease field is just "psoriasis" and for
 * Sjögren's Syndrome. Stage 3 falls back to "Other".
 *
 * Regular expressions are modelled as plain substrings (`Sub`) and whole words
 * (`Word`, a `\b...\b` pattern) searched in the ASCII-lowercased string.
 */
module Classify {
  import opened Base
  import opened Text
  import opened Values
  import Assoc

  /** The eight target categories, in the order in which stage 1 tries them. */
  datatype Category =
    | AnkylosingSpondylitis | HidradenitisSuppurativa | PlaquePsoriasis | PsoriaticArthritis
    | BreastCancer | HeartDisease | SjogrensSyndrome | Other

  /** The label written into the data for each category. */
  function Name(c: Category): string {
    match c
    case AnkylosingSpondylitis => "Ankylosing Spondylitis"
    case HidradenitisSuppurativa => "Hidradenitis Suppurativa"
    case PlaquePsoriasis => "Plaque Psoriasis"
    case PsoriaticArthritis => "Psoriatic Arthritis"
    case BreastCancer => "Breast Cancer"
    case HeartDisease => "Heart Disease"
    case SjogrensSyndrome => "Sjögren's Syndrome"
    case Other => "Other"
  }

  const TargetCategories: seq<Category> := [
    AnkylosingSpondylitis, HidradenitisSuppurativa, PlaquePsoriasis, PsoriaticArthritis,
    BreastCancer, HeartDisease, SjogrensSyndrome, Other
  ]

  /** A keyword: a literal substring, or a whole word (`\bword\b`). */
  datatype Pattern = Sub(text: string) | Word(text: string)

  /**
   * The keywords of each category; "Other" has none. The table's
   * "_General Psoriasis" group is never looked up and is not modelled.
   */
  function Patterns(c: Category): (ps: seq<Pattern>)
    ensures forall k :: 0 <= k < |ps| ==> |ps[k].text| > 0
    ensures ps == [] <==> c == Other
  {
    match c
    case AnkylosingSpondylitis => [Sub("ankylosing"), Sub("spondylitis"), Sub("bamboo spine")]
    case HidradenitisSuppurativa => [Sub("hidradenitis"), Sub("suppurativa"), Word("hs"), Sub("acne inversa")]
    case PsoriaticArthritis => [Sub("psoriatic arthritis"), Word("psa")]
    case PlaquePsoriasis => [Sub("plaque psoriasis"), Sub("psoriasis vulgaris")]
    case BreastCancer =>
      [Sub("breast cancer"), Sub("mastectomy"), Sub("lumpectomy"), Word("brca"), Word("bc"), Sub("triple negative")]
    case HeartDisease =>
      [Sub("heart disease"), Sub("cardiac"), Sub("cardiovascular"), Sub("heart attack"), Sub("heart failure"),
       Sub("myocardial infarction"), Sub("angina"), Sub("atrial fibrillation"), Sub("afib"), Sub("bypass"),
       Sub("stent"), Sub("congestive heart failure"), Sub("chf"), Sub("arrhythmia"), Sub("coronary artery")]
    case SjogrensSyndrome => [Sub("sjögren's"), Sub("sjogren's"), Sub("sicca syndrome")]
    case Other => []
  }

  /** Words that confirm Psoriatic Arthritis when the disease field is just "psoriasis". */
  const JointWords: seq<string> := ["joint", "arthritis"]
  /** Words that confirm Plaque Psoriasis when the disease field is just "psoriasis". */
  const SkinWords: seq<string> := ["skin", "plaque", "scale", "lesion"]
  /** Words without which Sjögren's Syndrome is not taken from the text. */
  const DryWords: seq<string> := ["dry eye", "dry mouth"]

  /** `pattern.search(s)` with `re.IGNORECASE`, on the lower-cased `s`. */
  predicate Matches(p: Pattern, s: string) {
    match p
    case Sub(w) => Contains(s, w)
    case Word(w) => ContainsWord(s, w)
  }

  /** Some keyword of `c` is found in `s`. */
  predicate CategoryMatches(c: Category, s: string) {
    var ps := Patterns(c);
    exists k | 0 <= k < |ps| :: Matches(ps[k], s)
  }

  /** The outcome of stage 1: a category, or on to the text. */
  datatype DiseaseOutcome = Found(category: Category) | GoToText

  /**
   * Stage 1 over the categories `cats` (a suffix of `TargetCategories`):
   * the first category with a keyword in the lower-cased disease field `d`,
   * except that a psoriasis category found in a field that is exactly
   * "psoriasis" stops the search and defers to the text.
   */
  function DiseaseStage(cats: seq<Category>, d: string): (o: DiseaseOutcome)
    ensures o.Found? ==> o.category in cats && CategoryMatches(o.category, d)
  {
    if cats == [] then GoToText
    else if cats[0] == Other then DiseaseStage(cats[1..], d)
    else if CategoryMatches(cats[0], d) then
      if (cats[0] == PlaquePsoriasis || cats[0] == PsoriaticArthritis) && d == "psoriasis" then GoToText
      else Found(cats[0])
    else DiseaseStage(cats[1..], d)
  }

  /**
   * The Psoriatic Arthritis and Plaque Psoriasis text checks: a keyword of
   * `c` in `t`, and, when the disease field is just "psoriasis", one of the
   * `confirm` words as well.
   */
  function PsoriasisTextRule(c: Category, confirm: seq<string>, d: string, t: string): (r: Option<Category>)
    ensures r.Some? ==> r.value == c && CategoryMatches(c, t)
  {
    if !CategoryMatches(c, t) then None
    else if d == "psoriasis" then (if ContainsAny(t, confirm) then Some(c) else None)
    else Some(c)
  }

  /**
   * The loop over the remaining categories in the text: skips Other and the
   * two psoriasis categories; Sjögren's Syndrome needs a dryness phrase and,
   * without one, the loop goes on.
   */
  function OtherCategoriesInText(cats: seq<Category>, t: string): (r: Option<Category>)
    ensures r.Some? ==> r.value in cats && CategoryMatches(r.value, t)
  {
    if cats == [] then None
    else
      var c := cats[0];
      if c == Other || c == PlaquePsoriasis || c == PsoriaticArthritis then OtherCategoriesInText(cats[1..], t)
      else if CategoryMatches(c, t) then
        if c == SjogrensSyndrome then
          if ContainsAny(t, DryWords) then Some(c) else OtherCategoriesInText(cats[1..], t)
        else Some(c)
      else OtherCategoriesInText(cats[1..], t)
  }

  /** Stage 2 on a non-empty lower-cased text `t`, with `d` the lower-cased disease field. */
  function TextStage(d: string, t: string): (r: Option<Category>)
    ensures r.Some? ==> r.value != Other && CategoryMatches(r.value, t)
  {
    var psa := PsoriasisTextRule(PsoriaticArthritis, JointWords, d, t);
    if psa.Some? then psa
    else
      var plaque := PsoriasisTextRule(PlaquePsoriasis, SkinWords, d, t);
      if plaque.Some? then plaque
      else OtherCategoriesInText(TargetCategories, t)
  }

  /** `str(field)`, with `None` (a missing key or JSON null) read as the empty string. */
  function FieldText(field: Json): string {
    if field == JNull then "" else PyStr(field)
  }

  /** The stripped, lower-cased form in which the classifier reads a field. */
  function Normalised(field: Json): string {
    Lower(Strip(FieldText(field), IsPyWhitespace))
  }

  /**
   * `classify_testimonial(disease_field, text)` on the two normalised
   * fields: a category other than "Other" is always backed by one of its
   * keywords, in the disease field or in the text.
   */
  function Classify(d: string, t: string): (r: Category)
    ensures r != Other ==> CategoryMatches(r, d) || CategoryMatches(r, t)
  {
    var stage1 := if d != "" then DiseaseStage(TargetCategories, d) else GoToText;
    if stage1.Found? then stage1.category
    else
      var fromText := if t != "" then TextStage(d, t) else None;
      // Both fallbacks of stage 3 (disease field "psoriasis" or not) give "Other".
      if fromText.Some? then fromText.value else Other
  }

  /**
   * `classify_testimonial(disease_field, text)`: the label of one of the
   * eight target categories. The disease field and the text are stripped
   * and lower-cased; stripping before lower-casing, as the source does, is
   * the same as the other way round, since case folding keeps whitespace
   * (`Text.LowerStrip`).
   */
  function ClassifyTestimonial(diseaseField: Json, text: Json): (r: string)
    ensures r in TargetNames
  {
    var c := Classify(Normalised(diseaseField), Normalised(text));
    NameListed(c);
    Name(c)
  }

  /** The labels of `TARGET_CATEGORIES`, in order. */
  const TargetNames: seq<string> := [
    "Ankylosing Spondylitis", "Hidradenitis Suppurativa", "Plaque Psoriasis", "Psoriatic Arthritis",
    "Breast Cancer", "Heart Disease", "Sjögren's Syndrome", "Other"
  ]

  lemma NameListed(c: Category)
    ensures Name(c) in TargetNames
  {
    match c
    case AnkylosingSpondylitis => assert TargetNames[0] == Name(c);
    case HidradenitisSuppurativa => assert TargetNames[1] == Name(c);
    case PlaquePsoriasis => assert TargetNames[2] == Name(c);
    case PsoriaticArthritis => assert TargetNames[3] == Name(c);
    case BreastCancer => assert TargetNames[4] == Name(c);
    case HeartDisease => assert TargetNames[5] == Name(c);
    case SjogrensSyndrome => assert TargetNames[6] == Name(c);
    case Other => assert TargetNames[7] == Name(c);
  }

  // ---------------------------------------------------------------------
  // Stage 1.

  /** Labels identify categories: `Name` is one-to-one. */
  lemma NameInjective(a: Category, b: Category)
    requires Name(a) == Name(b)
    ensures a == b
  {
  }

  /**
   * No keyword of any target category occurs in the disease field
   * "psoriasis". Hence the early exit for a psoriasis category found in a
   * field that is exactly "psoriasis" is never taken: stage 1 finds nothing
   * and defers to the text.
   */
  lemma PsoriasisMatchesNoCategory(c: Category)
    ensures !CategoryMatches(c, "psoriasis")
  {
    // Each keyword holds a character that "psoriasis" lacks, except "psa".
    match c
    case AnkylosingSpondylitis => AnkylosingSpondylitisNotInPsoriasis();
    case HidradenitisSuppurativa => HidradenitisSuppurativaNotInPsoriasis();
    case PsoriaticArthritis => PsoriaticArthritisNotInPsoriasis();
    case PlaquePsoriasis => PlaquePsoriasisNotInPsoriasis();
    case BreastCancer => BreastCancerNotInPsoriasis();
    case HeartDisease => HeartDiseaseNotInPsoriasis();
    case SjogrensSyndrome => SjogrensSyndromeNotInPsoriasis();
    case Other =>
  }

  lemma AnkylosingSpondylitisNotInPsoriasis()
    ensures !CategoryMatches(AnkylosingSpondylitis, "psoriasis")
  {
    var s := "psoriasis";
    assert s == ['p', 's', 'o', 'r', 'i', 'a', 's', 'i', 's'];
    AbsentChar(s, "ankylosing", 1); AbsentChar(s, "spondylitis", 3); AbsentChar(s, "bamboo spine", 0);
  }

  lemma HidradenitisSuppurativaNotInPsoriasis()
    ensures !CategoryMatches(HidradenitisSuppurativa, "psoriasis")
  {
    var s := "psoriasis";
    assert s == ['p', 's', 'o', 'r', 'i', 'a', 's', 'i', 's'];
    AbsentChar(s, "hidradenitis", 0); AbsentChar(s, "suppurativa", 1); AbsentChar(s, "hs", 0);
    AbsentChar(s, "acne inversa", 1);
  }

  /** "psa" is not a whole word of "psoriasis": it does not even occur in it. */
  lemma PsoriaticArthritisNotInPsoriasis()
    ensures !CategoryMatches(PsoriaticArthritis, "psoriasis")
  {
    var s := "psoriasis";
    assert s == ['p', 's', 'o', 'r', 'i', 'a', 's', 'i', 's'];
    AbsentChar(s, "psoriatic arthritis", 6);
    assert s[1..] == ['s', 'o', 'r', 'i', 'a', 's', 'i', 's'];
    forall i | 0 <= i <= |s| - 3 ensures !WordAt(s, "psa", i) {
      if i == 0 { assert s[2] == 'o'; } else { assert s[i] == s[1..][i - 1]; }
    }
  }

  lemma PlaquePsoriasisNotInPsoriasis()
    ensures !CategoryMatches(PlaquePsoriasis, "psoriasis")
  {
    var s := "psoriasis";
    assert s == ['p', 's', 'o', 'r', 'i', 'a', 's', 'i', 's'];
    AbsentChar(s, "plaque psoriasis", 1); AbsentChar(s, "psoriasis vulgaris", 10);
  }

  lemma SjogrensSyndromeNotInPsoriasis()
    ensures !CategoryMatches(SjogrensSyndrome, "psoriasis")
  {
    var s := "psoriasis";
    assert s == ['p', 's', 'o', 'r', 'i', 'a', 's', 'i', 's'];
    AbsentChar(s, "sjögren's", 1); AbsentChar(s, "sjogren's", 1); AbsentChar(s, "sicca syndrome", 2);
  }

  lemma BreastCancerNotInPsoriasis()
    ensures !CategoryMatches(BreastCancer, "psoriasis")
  {
    var s := "psoriasis";
    assert s == ['p', 's', 'o', 'r', 'i', 'a', 's', 'i', 's'];
    AbsentChar(s, "breast cancer", 0); AbsentChar(s, "mastectomy", 0); AbsentChar(s, "lumpectomy", 0);
    AbsentChar(s, "brca", 0); AbsentChar(s, "bc", 0); AbsentChar(s, "triple negative", 0);
  }

  lemma HeartDiseaseNotInPsoriasis()
    ensures !CategoryMatches(HeartDisease, "psoriasis")
  {
    HeartDiseaseHeadNotInPsoriasis();
    HeartDiseaseTailNotInPsoriasis();
  }

  lemma HeartDiseaseHeadNotInPsoriasis()
    ensures forall k :: 0 <= k < 8 ==> !Matches(Patterns(HeartDisease)[k], "psoriasis")
  {
    var s := "psoriasis";
    assert s == ['p', 's', 'o', 'r', 'i', 'a', 's', 'i', 's'];
    AbsentChar(s, "heart disease", 0); AbsentChar(s, "cardiac", 0); AbsentChar(s, "cardiovascular", 0);
    AbsentChar(s, "heart attack", 0); AbsentChar(s, "heart failure", 0);
    AbsentChar(s, "myocardial infarction", 0); AbsentChar(s, "angina", 1);
    AbsentChar(s, "atrial fibrillation", 1);
  }

  lemma HeartDiseaseTailNotInPsoriasis()
    ensures forall k :: 8 <= k < 15 ==> !Matches(Patterns(HeartDisease)[k], "psoriasis")
  {
    var s := "psoriasis";
    assert s == ['p', 's', 'o', 'r', 'i', 'a', 's', 'i', 's'];
    AbsentChar(s, "afib", 1); AbsentChar(s, "bypass", 0);
    AbsentChar(s, "stent", 2); AbsentChar(s, "congestive heart failure", 0); AbsentChar(s, "chf", 0);
    AbsentChar(s, "arrhythmia", 3); AbsentChar(s, "coronary artery", 0);
  }

  /** Every keyword is non-empty, so nothing matches an empty field. */
  lemma NothingMatchesEmpty(c: Category)
    ensures !CategoryMatches(c, "")
  {
  }

  /** The first category of `cats` (by index) that matches `d`. */
  ghost predicate FirstMatchAt(cats: seq<Category>, d: string, j: int) {
    0 <= j < |cats| && CategoryMatches(cats[j], d)
    && forall k :: 0 <= k < j ==> !CategoryMatches(cats[k], d)
  }

  /**
   * Away from the field "psoriasis", stage 1 returns exactly the first
   * category, in list order, that has a keyword in the disease field, and
   * defers to the text when there is none.
   */
  lemma {:induction false} DiseaseStageFindsFirstMatch(cats: seq<Category>, d: string)
    requires d != "psoriasis"
    ensures DiseaseStage(cats, d).Found? <==> exists i :: 0 <= i < |cats| && CategoryMatches(cats[i], d)
    ensures DiseaseStage(cats, d).Found? ==>
      exists j :: FirstMatchAt(cats, d, j) && cats[j] == DiseaseStage(cats, d).category
  {
    if cats != [] {
      DiseaseStageFindsFirstMatch(cats[1..], d);
      var o := DiseaseStage(cats, d);
      if !CategoryMatches(cats[0], d) {
        assert o == DiseaseStage(cats[1..], d);
        FirstMatchSkip(cats, d, o);
      } else {
        assert o == Found(cats[0]);
        assert FirstMatchAt(cats, d, 0);
      }
    }
  }

  /** A head without a keyword passes both the search and the first match on to the tail. */
  lemma FirstMatchSkip(cats: seq<Category>, d: string, o: DiseaseOutcome)
    requires cats != [] && !CategoryMatches(cats[0], d)
    requires o.Found? <==> exists i :: 0 <= i < |cats[1..]| && CategoryMatches(cats[1..][i], d)
    requires o.Found? ==> exists j :: FirstMatchAt(cats[1..], d, j) && cats[1..][j] == o.category
    ensures o.Found? <==> exists i :: 0 <= i < |cats| && CategoryMatches(cats[i], d)
    ensures o.Found? ==> exists j :: FirstMatchAt(cats, d, j) && cats[j] == o.category
  {
    if exists i :: 0 <= i < |cats| && CategoryMatches(cats[i], d) {
      var i :| 0 <= i < |cats| && CategoryMatches(cats[i], d);
      assert CategoryMatches(cats[1..][i - 1], d);
    }
    if o.Found? {
      var j :| FirstMatchAt(cats[1..], d, j) && cats[1..][j] == o.category;
      assert FirstMatchAt(cats, d, j + 1);
    }
  }

  /**
   * When some target category has a keyword in the disease field, the result
   * is the first such category in `TARGET_CATEGORIES` order, whatever the text.
   */
  lemma DiseaseFieldDecides(d: string, t: string, t': string, i: nat)
    requires i < |TargetCategories| && CategoryMatches(TargetCategories[i], d)
    ensures exists j :: FirstMatchAt(TargetCategories, d, j) && Classify(d, t) == TargetCategories[j]
    ensures Classify(d, t) == Classify(d, t')
  {
    PsoriasisMatchesNoCategory(TargetCategories[i]);
    NothingMatchesEmpty(TargetCategories[i]);
    DiseaseStageFindsFirstMatch(TargetCategories, d);
  }

  /**
   * A disease field naming "plaque psoriasis" (and no Ankylosing Spondylitis
   * or Hidradenitis Suppurativa keyword) gives Plaque Psoriasis, even when it
   * also names psoriatic arthritis: Plaque Psoriasis comes first in
   * `TARGET_CATEGORIES`.
   */
  lemma PlaqueBeforePsoriaticArthritisInDiseaseField(d: string, t: string)
    requires Contains(d, "plaque psoriasis")
    requires !CategoryMatches(AnkylosingSpondylitis, d) && !CategoryMatches(HidradenitisSuppurativa, d)
    ensures Classify(d, t) == PlaquePsoriasis
  {
    assert Matches(Patterns(PlaquePsoriasis)[0], d);
    DiseaseFieldDecides(d, t, t, 2);
  }

  // ---------------------------------------------------------------------
  // Stage 2, against a plain priority list.

  /** The order in which the text is searched. */
  const TextPriority: seq<Category> := [
    PsoriaticArthritis, PlaquePsoriasis, AnkylosingSpondylitis, HidradenitisSuppurativa,
    BreastCancer, HeartDisease, SjogrensSyndrome
  ]

  /**
   * Category `c` is supported by the lower-cased text `t`: one of its
   * keywords occurs, plus the confirming words the rules ask for.
   */
  predicate Fires(c: Category, d: string, t: string) {
    CategoryMatches(c, t)
    && (c == PsoriaticArthritis && d == "psoriasis" ==> ContainsAny(t, JointWords))
    && (c == PlaquePsoriasis && d == "psoriasis" ==> ContainsAny(t, SkinWords))
    && (c == SjogrensSyndrome ==> ContainsAny(t, DryWords))
  }

  /** The first category of `cats` that `t` supports. */
  function FirstFiring(cats: seq<Category>, d: string, t: string): Option<Category> {
    if cats == [] then None
    else if Fires(cats[0], d, t) then Some(cats[0])
    else FirstFiring(cats[1..], d, t)
  }

  /** The categories the loop over the remaining ones can return, in order. */
  function RemainingInText(cats: seq<Category>): seq<Category> {
    if cats == [] then []
    else if cats[0] == Other || cats[0] == PlaquePsoriasis || cats[0] == PsoriaticArthritis then
      RemainingInText(cats[1..])
    else [cats[0]] + RemainingInText(cats[1..])
  }

  lemma {:induction false} OtherCategoriesAreFirstFiring(cats: seq<Category>, d: string, t: string)
    ensures OtherCategoriesInText(cats, t) == FirstFiring(RemainingInText(cats), d, t)
  {
    if cats != [] {
      OtherCategoriesAreFirstFiring(cats[1..], d, t);
      var c := cats[0];
      if !(c == Other || c == PlaquePsoriasis || c == PsoriaticArthritis) {
        assert ([c] + RemainingInText(cats[1..]))[1..] == RemainingInText(cats[1..]);
      }
    }
  }

  lemma RemainingTargets()
    ensures RemainingInText(TargetCategories)
      == [AnkylosingSpondylitis, HidradenitisSuppurativa, BreastCancer, HeartDisease, SjogrensSyndrome]
  {
  }

  /** `FirstFiring` on a list whose first two categories are given. */
  lemma FirstFiringTwo(a: Category, b: Category, rest: seq<Category>, d: string, t: string)
    ensures FirstFiring([a] + ([b] + rest), d, t)
      == if Fires(a, d, t) then Some(a) else if Fires(b, d, t) then Some(b) else FirstFiring(rest, d, t)
  {
    assert ([a] + ([b] + rest))[1..] == [b] + rest;
    assert ([b] + rest)[1..] == rest;
  }

  /**
   * Stage 2 returns the first category of the priority list Psoriatic
   * Arthritis, Plaque Psoriasis, Ankylosing Spondylitis, Hidradenitis
   * Suppurativa, Breast Cancer, Heart Disease, Sjögren's Syndrome that the
   * text supports.
   */
  lemma TextStageIsFirstFiring(d: string, t: string)
    ensures TextStage(d, t) == FirstFiring(TextPriority, d, t)
  {
    var rest := RemainingInText(TargetCategories);
    OtherCategoriesAreFirstFiring(TargetCategories, d, t);
    RemainingTargets();
    assert TextPriority == [PsoriaticArthritis] + ([PlaquePsoriasis] + rest);
    FirstFiringTwo(PsoriaticArthritis, PlaquePsoriasis, rest, d, t);
    assert PsoriasisTextRule(PsoriaticArthritis, JointWords, d, t)
      == if Fires(PsoriaticArthritis, d, t) then Some(PsoriaticArthritis) else None;
    assert PsoriasisTextRule(PlaquePsoriasis, SkinWords, d, t)
      == if Fires(PlaquePsoriasis, d, t) then Some(PlaquePsoriasis) else None;
  }

  /** What `FirstFiring` returns is a supported category of the list, and `None` means none is. */
  lemma {:induction false} FirstFiringSound(cats: seq<Category>, d: string, t: string)
    ensures FirstFiring(cats, d, t).Some? ==>
      FirstFiring(cats, d, t).value in cats && Fires(FirstFiring(cats, d, t).value, d, t)
    ensures FirstFiring(cats, d, t).None? <==> forall i :: 0 <= i < |cats| ==> !Fires(cats[i], d, t)
  {
    if cats != [] {
      FirstFiringSound(cats[1..], d, t);
      if !Fires(cats[0], d, t) && FirstFiring(cats, d, t).None? {
        forall i | 0 <= i < |cats| ensures !Fires(cats[i], d, t) {
          if i > 0 { assert cats[i] == cats[1..][i - 1]; }
        }
      }
    }
  }

  /** The disease field has no keyword of any target category. */
  predicate DiseaseFieldSilent(d: string) {
    forall i :: 0 <= i < |TargetCategories| ==> !CategoryMatches(TargetCategories[i], d)
  }

  /**
   * When the disease field names no category (for instance when it is just
   * "psoriasis"), the result is the first category of the text priority
   * list that the text supports, and "Other" when there is none or the text
   * is empty.
   */
  lemma TextDecidesWhenDiseaseSilent(d: string, t: string)
    requires DiseaseFieldSilent(d)
    ensures Classify(d, t) == if t == "" then Other else FirstFiring(TextPriority, d, t).GetOr(Other)
  {
    if d != "psoriasis" {
      DiseaseStageFindsFirstMatch(TargetCategories, d);
    }
    TextStageIsFirstFiring(d, t);
  }

  /** A disease field of just "psoriasis" names no category. */
  lemma PsoriasisFieldIsSilent()
    ensures DiseaseFieldSilent("psoriasis")
  {
    forall i | 0 <= i < |TargetCategories| ensures !CategoryMatches(TargetCategories[i], "psoriasis") {
      PsoriasisMatchesNoCategory(TargetCategories[i]);
    }
  }

  /**
   * A disease field of just "psoriasis": Psoriatic Arthritis needs "joint" or
   * "arthritis" in the text, Plaque Psoriasis needs "skin", "plaque", "scale"
   * or "lesion"; "psoriatic arthritis" in the text always gives Psoriatic
   * Arthritis, since it contains "arthritis"; with no category supported the
   * result is "Other".
   */
  lemma PsoriasisDiseaseField(t: string)
    ensures var r := Classify("psoriasis", t);
      && (r == PsoriaticArthritis ==> ContainsAny(t, JointWords))
      && (r == PlaquePsoriasis ==> ContainsAny(t, SkinWords))
      && (Contains(t, "psoriatic arthritis") ==> r == PsoriaticArthritis)
      && ((forall i :: 0 <= i < |TextPriority| ==> !Fires(TextPriority[i], "psoriasis", t)) ==> r == Other)
  {
    PsoriasisFieldIsSilent();
    TextDecidesWhenDiseaseSilent("psoriasis", t);
    FirstFiringSound(TextPriority, "psoriasis", t);
    if Contains(t, "psoriatic arthritis") {
      PsoriaticArthritisPhraseFires(t);
    }
  }

  /** "psoriatic arthritis" is a Psoriatic Arthritis keyword that carries its own joint word. */
  lemma PsoriaticArthritisPhraseFires(t: string)
    requires Contains(t, "psoriatic arthritis")
    ensures Fires(PsoriaticArthritis, "psoriasis", t)
  {
    var i :| 0 <= i <= |t| - |"psoriatic arthritis"| && OccursAt(t, "psoriatic arthritis", i);
    assert t[i + 10..i + 19] == "psoriatic arthritis"[10..19] == "arthritis";
    assert OccursAt(t, "arthritis", i + 10);
    assert Contains(t, JointWords[1]);
    assert Matches(Patterns(PsoriaticArthritis)[0], t);
  }

  /**
   * Sjögren's Syndrome comes from the text only together with "dry eye" or
   * "dry mouth".
   */
  lemma SjogrensFromTextNeedsDryness(d: string, t: string)
    requires DiseaseFieldSilent(d)
    requires Classify(d, t) == SjogrensSyndrome
    ensures ContainsAny(t, DryWords)
  {
    TextDecidesWhenDiseaseSilent(d, t);
    FirstFiringSound(TextPriority, d, t);
  }

  /**
   * The classifier reads its inputs only through their stripped, lower-cased
   * forms: fields with the same form classify alike.
   */
  lemma ClassifyReadsNormalisedFields(d1: Json, t1: Json, d2: Json, t2: Json)
    requires Normalised(d1) == Normalised(d2) && Normalised(t1) == Normalised(t2)
    ensures ClassifyTestimonial(d1, t1) == ClassifyTestimonial(d2, t2)
  {
  }

  /** Texts that differ only in letter case have the same normalised form. */
  lemma NormalisedIgnoresCase(s1: string, s2: string)
    requires Lower(s1) == Lower(s2)
    ensures Normalised(JStr(s1)) == Normalised(JStr(s2))
  {
    LowerStrip(s1);
    LowerStrip(s2);
  }

  /** Whitespace around a text does not change its normalised form. */
  lemma NormalisedIgnoresPadding(pre: string, s: string, post: string)
    requires forall j :: 0 <= j < |pre| ==> IsPyWhitespace(pre[j])
    requires forall j :: 0 <= j < |post| ==> IsPyWhitespace(post[j])
    ensures Normalised(JStr(pre + s + post)) == Normalised(JStr(s))
  {
    StripPadded(pre, s, post, IsPyWhitespace);
  }

  /** Letter case in the disease field and the text does not change the label. */
  lemma ClassifyIgnoresCase(d1: string, t1: string, d2: string, t2: string)
    requires Lower(d1) == Lower(d2) && Lower(t1) == Lower(t2)
    ensures ClassifyTestimonial(JStr(d1), JStr(t1)) == ClassifyTestimonial(JStr(d2), JStr(t2))
  {
    NormalisedIgnoresCase(d1, d2);
    NormalisedIgnoresCase(t1, t2);
  }

  /** Whitespace around the disease field and the text does not change the label. */
  lemma ClassifyIgnoresPadding(d: string, t: string, pre: string, post: string)
    requires forall j :: 0 <= j < |pre| ==> IsPyWhitespace(pre[j])
    requires forall j :: 0 <= j < |post| ==> IsPyWhitespace(post[j])
    ensures ClassifyTestimonial(JStr(pre + d + post), JStr(pre + t + post)) == ClassifyTestimonial(JStr(d), JStr(t))
  {
    NormalisedIgnoresPadding(pre, d, post);
    NormalisedIgnoresPadding(pre, t, post);
  }

  /** Empty (or missing, or blank) disease field and text give "Other". */
  lemma EmptyInputIsOther(diseaseField: Json, text: Json)
    requires Normalised(diseaseField) == "" && Normalised(text) == ""
    ensures ClassifyTestimonial(diseaseField, text) == Name(Other)
  {
  }
}
