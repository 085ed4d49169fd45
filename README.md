# Inflamnation: a verified model of the testimonial pipeline

Inflamnation shows patient testimonials on a map of US counties, coloured by
the condition each one is about. This project models the logic behind it and
proves its properties:

- **Offline classification** (`classify_and_rewrite.py`).
  - `classify_testimonial` sorts a testimonial into one of eight categories. It runs in three stages:
    - a keyword match on the disease field;
    - a prioritised keyword match on the free text;
    - a fallback to "Other".
  - `process_json_stream` streams the county table. It adds a `classification` to every testimonial
    object, writes each county back out, and counts counties, classified testimonials and anomalies.
  - `decimal_default` is the encoder fallback for `Decimal` numbers.
- **Offline report** (`analyze_data.py`). `analyze_classified_data` counts testimonials per label
  and sorts the labels by count, most frequent first, then by label.
- **Data hook** (`src/hooks/useData.js`).
  - Builds the centroid map of the county features.
  - Turns the testimonials of counties that have a centroid into jittered map points.
  - Tallies the classifications into a fixed-key count map.
  - Derives the offered filters and their all-off start state.
  - Recomputes the filtered points and their cluster index when the flags change.
  - Toggles one flag.
- **Map** (`src/components/Map/Map.jsx`). A `MapComponent` class holds the viewport, the cluster
  query result and the selected testimonial. Its methods model:
  - the cluster-query effect;
  - the layer click (cluster: zoom in; point: select);
  - the background click;
  - viewport changes.

  Pure functions model the cluster radius, the split of the query result into the two layers,
  and the bubble offset.
- **UI rules**:
  - text sanitising, the 150-character preview and the expand toggle (`Testimonial.jsx`);
  - colour and icon lookups with their fallbacks, and the point sizes (`diseaseMappings.js`);
  - the active-filter count, the "Showing N condition(s)" line and the per-classification
    switches (`FilterPanel.jsx`);
  - the figures of the first switched-on classification (`StatisticsPanel.jsx`).

Shared helper modules:

| module | what it holds |
|---|---|
| `Base` | `Option` and `Result` |
| `Assoc` | ordered key/value lists, standing for Python dicts and JS objects in insertion order |
| `Lists` | order-preserving filter |
| `Text` | ASCII lower-casing, Python and JS trimming, substring and whole-word tests, decimal digits |
| `Values` | JSON values, JS truthiness and `String()`, Python `str()` |

The keyword regexes are literal phrases or `\b…\b` whole words. They are modelled as substring and
whole-word tests on the stripped, ASCII-lower-cased field.

Where the code and its comments disagree, the model follows the code:

- A disease field of exactly "psoriasis" matches no keyword in stage 1, so the special `break` at
  `classify_and_rewrite.py:69-72` can never run.
- With such a field the text stage still tries every text category, not only the two psoriasis ones.
  A text mentioning "breast cancer" gives Breast Cancer (`Classify.PsoriasisDiseaseField`,
  `Classify.TextDecidesWhenDiseaseSilent`).
- The analysis counts a present-but-`null` label under `null`. The `'Other'` default of `.get` applies
  only when the key is absent.
- The two map layers get the same layer list whatever the zoom.
- The bubble is placed by a plain linear offset, with no clamping to the screen edge.
- Testimonial ids are `fips-countyIndex-itemIndex`, and the item index restarts for the negative
  list, so ids repeat (`UseData.IdsRepeatAcrossSentiments`).

The report fails exactly where Python's `sorted` raises `TypeError`. The sort key is `(-count, label)`, so the
labels of one count sit next to each other in the output. A comparison sort compares every two entries that
end up next to each other, and within a count group of labels that Python cannot all compare, some such
neighbours are of kinds that cannot be compared. So the outcome does not depend on the order of the entries.

## Model

| member | source | states |
|---|---|---|
| Classify.Patterns | classify_and_rewrite.py:28-42 | every keyword of every category is non-empty, and a category has no keywords iff it is "Other" |
| Classify.DiseaseStage | classify_and_rewrite.py:60-79 | a category found in the disease field is one of the categories tried and has a keyword in the field |
| Classify.DiseaseStageFindsFirstMatch | classify_and_rewrite.py:60-79 | away from the field "psoriasis", stage 1 finds a category iff some category matches, and it is the first match in list order |
| Classify.PsoriasisTextRule | classify_and_rewrite.py:90-107 | a psoriasis category from the text has a keyword in the text |
| Classify.OtherCategoriesInText | classify_and_rewrite.py:109-123 | a category found by the remaining-categories loop is one of those tried and has a keyword in the text |
| Classify.TextStage | classify_and_rewrite.py:88-123 | the text stage never yields "Other" and only a category with a keyword in the text |
| Classify.Classify | classify_and_rewrite.py:50-137 | every result other than "Other" is backed by a keyword in the disease field or the text |
| Classify.ClassifyTestimonial | classify_and_rewrite.py:50-137 | the label is always one of the eight `TARGET_CATEGORIES` names (never "_General Psoriasis") |
| Classify.NameListed | classify_and_rewrite.py:14-23 | every category's name is in the target list |
| Classify.NameInjective | classify_and_rewrite.py:14-23 | distinct categories have distinct names |
| Classify.PsoriasisMatchesNoCategory | classify_and_rewrite.py:62-72 | no keyword of any category occurs in "psoriasis", so the stage-1 `break` is unreachable |
| Classify.AnkylosingSpondylitisNotInPsoriasis | classify_and_rewrite.py:29 | no Ankylosing Spondylitis keyword occurs in "psoriasis" |
| Classify.HidradenitisSuppurativaNotInPsoriasis | classify_and_rewrite.py:30 | no Hidradenitis Suppurativa keyword occurs in "psoriasis" |
| Classify.PsoriaticArthritisNotInPsoriasis | classify_and_rewrite.py:31 | no Psoriatic Arthritis keyword occurs in "psoriasis" |
| Classify.PlaquePsoriasisNotInPsoriasis | classify_and_rewrite.py:32 | no Plaque Psoriasis keyword occurs in "psoriasis" |
| Classify.BreastCancerNotInPsoriasis | classify_and_rewrite.py:33 | no Breast Cancer keyword occurs in "psoriasis" |
| Classify.HeartDiseaseNotInPsoriasis | classify_and_rewrite.py:34-38 | no Heart Disease keyword occurs in "psoriasis" |
| Classify.SjogrensSyndromeNotInPsoriasis | classify_and_rewrite.py:39 | no Sjögren's Syndrome keyword occurs in "psoriasis" |
| Classify.NothingMatchesEmpty | classify_and_rewrite.py:60-89 | no keyword matches an empty field |
| Classify.DiseaseFieldDecides | classify_and_rewrite.py:60-74 | when any category matches the disease field, the result is the first such category in `TARGET_CATEGORIES` order, whatever the text |
| Classify.PlaqueBeforePsoriaticArthritisInDiseaseField | classify_and_rewrite.py:14-74 | a disease field naming "plaque psoriasis" (and no AS or HS keyword) gives Plaque Psoriasis even if it names psoriatic arthritis too |
| Classify.OtherCategoriesAreFirstFiring | classify_and_rewrite.py:110-123 | the remaining-categories loop returns the first of the remaining categories whose rule fires |
| Classify.RemainingTargets | classify_and_rewrite.py:111-113 | the remaining categories are AS, HS, Breast Cancer, Heart Disease, Sjögren's, in that order |
| Classify.TextStageIsFirstFiring | classify_and_rewrite.py:88-123 | the text stage returns the first firing category of the priority list PsA, Plaque, AS, HS, Breast Cancer, Heart Disease, Sjögren's |
| Classify.FirstFiringSound | classify_and_rewrite.py:88-123 | the first firing category is in the list and fires; none is returned iff no category fires |
| Classify.TextDecidesWhenDiseaseSilent | classify_and_rewrite.py:87-137 | when the disease field matches nothing, the result is the first firing text category, or "Other" |
| Classify.PsoriasisFieldIsSilent | classify_and_rewrite.py:62-72 | the disease field "psoriasis" matches no category |
| Classify.PsoriasisDiseaseField | classify_and_rewrite.py:93-132 | with the field "psoriasis", PsA needs "joint"/"arthritis", Plaque needs skin/plaque/scale/lesion, "psoriatic arthritis" in the text gives PsA, and nothing firing gives "Other" |
| Classify.PsoriaticArthritisPhraseFires | classify_and_rewrite.py:31-94 | "psoriatic arthritis" in the text satisfies the joint/arthritis confirmation |
| Classify.SjogrensFromTextNeedsDryness | classify_and_rewrite.py:117-120 | Sjögren's from the text requires "dry eye" or "dry mouth" |
| Classify.ClassifyReadsNormalisedFields | classify_and_rewrite.py:55-57 | fields with the same stripped, lower-cased form (`None` read as "") classify alike |
| Text.LowerStrip | classify_and_rewrite.py:55-57 | stripping then lower-casing is lower-casing then stripping, since lower-casing keeps whitespace |
| Text.StripPadded | classify_and_rewrite.py:55-56 | whitespace added at either end is stripped away again |
| Classify.Normalised | classify_and_rewrite.py:55-57 | no contract of its own; `NormalisedIgnoresCase`, `NormalisedIgnoresPadding` and `ClassifyReadsNormalisedFields` state what it keeps and drops |
| Classify.CategoryMatches | classify_and_rewrite.py:62-66 | no contract of its own; `DiseaseStage` and `Classify` state that every category found has a matching keyword |
| Classify.NormalisedIgnoresCase | classify_and_rewrite.py:55-57 | texts that differ only in letter case have the same normalised form |
| Classify.NormalisedIgnoresPadding | classify_and_rewrite.py:55-56 | whitespace around a text leaves its normalised form unchanged |
| Classify.ClassifyIgnoresCase | classify_and_rewrite.py:46-57 | the letter case of the disease field and the text does not change the label |
| Classify.ClassifyIgnoresPadding | classify_and_rewrite.py:55-56 | whitespace around the disease field and the text does not change the label |
| Classify.EmptyInputIsOther | classify_and_rewrite.py:55-137 | an empty (or missing, or blank) disease field and text give "Other" |
| Rewrite.Classified | classify_and_rewrite.py:187-191 | the copy has `classification` set to the tag, every other key unchanged, and the key replaced in place or appended |
| Rewrite.RewriteItem | classify_and_rewrite.py:184-196 | an object gets the classifier's label of its `disease` and `nn_verbatim`, with its other keys kept; a non-object is passed through |
| Rewrite.MappingCount | classify_and_rewrite.py:185-193 | the number of objects is at most the list length |
| Rewrite.RewriteItems | classify_and_rewrite.py:181-199 | the list keeps its length; every item is counted once, as processed or as an error |
| Rewrite.RewriteItemsCorrect | classify_and_rewrite.py:181-199 | the order is kept with each item rewritten, and the processed items are exactly the objects |
| Rewrite.RewriteField | classify_and_rewrite.py:180-202 | rewriting one verbatim field leaves every other key of the county unchanged |
| Rewrite.RewriteFieldCounts | classify_and_rewrite.py:180-202 | one field's counts: its objects are processed; its non-objects, or the field itself when present, non-null and not a list, are errors |
| Rewrite.RewriteCountyCounts | classify_and_rewrite.py:180-225 | a county's processed and error counts are the sums over its two verbatim fields |
| Rewrite.RewriteCountyLists | classify_and_rewrite.py:177-225 | both lists keep length and order with every item rewritten; a non-list field is left as is; every other key is unchanged |
| Rewrite.RewriteCounty | classify_and_rewrite.py:177-225 | no contract of its own; `RewriteCountyLists` and `RewriteCountyCounts` state its result |
| Rewrite.LabelsAreTargetCategories | classify_and_rewrite.py:190-215 | with `classify_testimonial`, every label written is a target category |
| Rewrite.DecimalDefault | classify_and_rewrite.py:277-282 | succeeds iff the value is a `Decimal`, giving its text; otherwise a `TypeError` "Object of type …" |
| Rewrite.FirstError | classify_and_rewrite.py:236 | no error is reported iff every element of a list or object encoded |
| Rewrite.DumpsNeverFails | classify_and_rewrite.py:236-282 | encoding a parsed value never raises, and no `Decimal` survives the fallback |
| Rewrite.Dumps | classify_and_rewrite.py:236-282 | no contract of its own; `DumpsNeverFails` states that it never fails on a parsed value |
| Rewrite.Step | classify_and_rewrite.py:166-171 | each county counts once; a non-object county is counted as an error and changes nothing else |
| Rewrite.Run | classify_and_rewrite.py:166-167 | the county counter equals the number of entries read |
| Rewrite.Totals | classify_and_rewrite.py:166-225 | no contract of its own; `RunTotals` states that the writer's totals are these sums |
| Rewrite.RunTotals | classify_and_rewrite.py:166-261 | the testimonial and error totals the stream reports are the sums over the counties: an object county adds its rewrite's processed and error counts, any other entry adds one error, and encoding an entry never adds an error |
| Rewrite.Entry | classify_and_rewrite.py:234-237 | no contract of its own; `OutputIsJoinedEntries` states that the output is these entries, in input order, joined by commas |
| Rewrite.OutputIsJoinedEntries | classify_and_rewrite.py:153-256 | the output is "{\n", the object counties' entries in input order joined by ",\n", then "\n}"; no stray comma |
| Rewrite.Output | classify_and_rewrite.py:153-256 | no contract of its own; `OutputIsJoinedEntries` states the text it produces |
| Rewrite.RewriteVerbatims | classify_and_rewrite.py:183-199 | the loop over one list computes exactly `RewriteItems` |
| Rewrite.RewriteVerbatimField | classify_and_rewrite.py:180-202 | the method computes exactly `RewriteField` |
| Rewrite.RewriteCountyData | classify_and_rewrite.py:177-225 | the method computes exactly `RewriteCounty` (positive list first) |
| Rewrite.WriteCounty | classify_and_rewrite.py:166-246 | the loop body for one county computes exactly `Step`: count it, skip a non-object as an error, add its counts, write `,\n` unless it is the first county, then its entry or one more error |
| Rewrite.ProcessJsonStream | classify_and_rewrite.py:145-256 | the loop's output text and its three counters are those of `Run` over all counties |
| Rewrite.ClassifyAndRewrite | classify_and_rewrite.py:140-261 | with `classify_testimonial`: the output is the joined entries, the county counter is the number of entries, and the reported testimonial and error totals are the per-county sums `Totals` |
| Analyze.TallyTotal | analyze_data.py:29-53 | the counts add up to the number of testimonials counted |
| Analyze.TallyCounts | analyze_data.py:28-53 | each label's count is its number of occurrences; a label has an entry iff it occurs |
| Analyze.TallyErrorSticks | analyze_data.py:78-80 | once counting has failed, later testimonials do not change the failure |
| Analyze.Tally | analyze_data.py:26-53 | no contract of its own; `TallyCounts`, `TallyTotal` and `TallySnoc` state its result |
| Analyze.Label | analyze_data.py:28-36 | no contract of its own; `NullLabelIsCounted` and `MissingLabelIsOther` state its two cases |
| Analyze.DictItemsAppend | analyze_data.py:26-39 | the dictionary items of a concatenation are the concatenated dictionary items |
| Analyze.TestimonialsAppend | analyze_data.py:18-55 | the testimonials of concatenated county tables are the concatenated testimonials |
| Analyze.StrLeqTotal | analyze_data.py:62 | string order is total |
| Analyze.EntryLeqTotal | analyze_data.py:62 | the report order is total |
| Analyze.Insert | analyze_data.py:62 | inserting into a sorted list keeps it sorted and adds exactly that entry |
| Analyze.Sort | analyze_data.py:62 | the result is sorted by count descending, then label, and is a permutation of the input |
| Analyze.Report | analyze_data.py:62-64 | fails iff two equal counts have labels Python cannot compare (numbers, that is `bool`, `int` and `Decimal`, compare with each other by value, strings with strings); otherwise a sorted permutation of the counts |
| Analyze.NumberLabelsReport | analyze_data.py:62 | when every label is a number (`bool`, `int` or `Decimal`) the report never fails |
| Analyze.TiedNumbersInOrder | analyze_data.py:62-64 | two numeric labels with equal counts are reported smaller value first |
| Analyze.DecimalLabelsOrdered | analyze_data.py:62-64 | the decimals 2.5 and 1.5, counted once each, are reported 1.5 first |
| Analyze.DecimalIntLabelsOrdered | analyze_data.py:62-64 | the decimal 2.5 and the int 2, counted once each, are reported 2 first |
| Values.PointLiteral | analyze_data.py:16-18 | a literal `w.f` read as a `Decimal` is the number written by the digits `wf`, divided by ten once per fraction digit |
| Values.ExponentLiteral | analyze_data.py:16-18 | a literal `wEx` read as a `Decimal` is `w` times ten to the power `x` |
| Values.DecimalOfWhole | analyze_data.py:16-18 | the literal `n.0` has the value `n` |
| Values.OneDigitPoint | analyze_data.py:16-18 | a literal `a.b` of two single digits has the value a + b/10 |
| Values.DecimalSamples | analyze_data.py:16-18 | the literals 1.5 and 2.5 have the values 1.5 and 2.5 |
| Analyze.AnalysisCorrect | analyze_data.py:9-64 | whenever every label is hashable: the counts sum to the number of dict items of list-valued verbatim fields of dict counties and count each label's occurrences; the analysis succeeds iff no two equal counts have incomparable labels, and then reports that total, those counts and their sorted permutation |
| Analyze.Analyze | analyze_data.py:18-64 | no contract of its own; `AnalysisCorrect` and `AnalyzeFailsOnlyWhen` state its outcome |
| Analyze.AnalyzeFailsOnlyWhen | analyze_data.py:28-64 | the analysis fails iff a label cannot be a dictionary key, or all can and two equal counts have labels that cannot be compared |
| Analyze.NullLabelIsCounted | analyze_data.py:28-31 | a present `null` label is counted under `null`, not "Other" |
| Analyze.MissingLabelIsOther | analyze_data.py:32-36 | an object without `classification` is counted under "Other" |
| Analyze.CountVerbatims | analyze_data.py:25-39 | the loop over one list extends the tally by its dictionary items, or returns the tally's failure |
| Analyze.CountCounty | analyze_data.py:19-55 | one county entry: a dictionary's positive then negative list extend the tally by its testimonials, anything else is skipped; a failure is the tally's failure |
| Analyze.UnhashableEnds | analyze_data.py:31-80 | an unhashable label ends the count of the whole list with its `TypeError` |
| Analyze.SplitAtDict | analyze_data.py:26-39 | splitting a list at a dictionary item splits its dictionary items alike |
| Analyze.AnalyzeClassifiedData | analyze_data.py:9-80 | the nested counting loop followed by the sort computes exactly `Analyze` (whose outcome `AnalysisCorrect` and `AnalyzeFailsOnlyWhen` describe) |
| Analyze.TestimonialsSplit | analyze_data.py:18-55 | the testimonials split at any county |
| Analyze.FailureEnds | analyze_data.py:78-80 | a failure in the first counties is the failure of the whole analysis |
| UseData.CentroidsComplete | src/hooks/useData.js:63-74 | every feature with a truthy id and no `NaN` coordinate has an entry |
| UseData.CentroidsSound | src/hooks/useData.js:63-74 | every entry is the centroid of the last valid feature with that key |
| UseData.BuildCentroids | src/hooks/useData.js:62-74 | the `forEach` loop computes exactly `Centroids` |
| UseData.Centroids | src/hooks/useData.js:62-74 | no contract of its own; `CentroidsComplete` and `CentroidsSound` state its entries |
| UseData.PointCount | src/hooks/useData.js:87-135 | one point per item of an array-valued verbatim field of a county with a centroid |
| UseData.SlotsHaveCentroids | src/hooks/useData.js:88-134 | every point comes from a county whose FIPS has a centroid, and uses it |
| UseData.CountyOrder | src/hooks/useData.js:92-131 | within a county the positive items come first, then the negative ones, each numbered from 0 and tagged by sentiment |
| UseData.CountySlots | src/hooks/useData.js:87-135 | no contract of its own; `SlotsHaveCentroids`, `CountyOrder` and `ProcessCounty` state its result |
| UseData.IdsRepeatAcrossSentiments | src/hooks/useData.js:112-131 | the first positive and the first negative testimonial of a county share an id |
| UseData.MakePoint | src/hooks/useData.js:108-125 | no contract of its own; `Jitter` bounds its coordinates and `IdsRepeatAcrossSentiments` shows that its ids can repeat |
| UseData.Jitter | src/hooks/useData.js:120-123 | each coordinate lies within 0.005 of the county centroid |
| UseData.ClassificationDefault | src/hooks/useData.js:96-114 | a missing or falsy classification becomes "Other"; any other is kept as stored |
| UseData.Classification | src/hooks/useData.js:96 | no contract of its own; `ClassificationDefault` states the "Other" default |
| UseData.IncrementKey | src/hooks/useData.js:99-106 | no contract of its own; `IncrementBucket` and `CountsStep` state which bucket it bumps |
| UseData.IncrementBucket | src/hooks/useData.js:99-106 | a classification is counted in its own bucket when it is a key, otherwise under "Other" |
| UseData.CountsFromCorrect | src/hooks/useData.js:80-106 | counting keeps the keys, puts each testimonial in its bucket, and sums to the number counted |
| UseData.CountsBase | src/hooks/useData.js:80-85 | the initial map has the fixed keys, all zero |
| UseData.CountsStep | src/hooks/useData.js:98-106 | one increment keeps the keys and adds one to its bucket and to the total |
| Assoc.Increment | src/hooks/useData.js:100-104 | `counts[key]++` (and `classification_counts[tag] += 1`) adds one to that key and to the total, keeps the key order and changes nothing else |
| UseData.CountsCorrect | src/hooks/useData.js:80-106 | the count map has exactly the seven target keys plus "Other", each holding its bucket's count, summing to the number of points |
| UseData.Counts | src/hooks/useData.js:80-106 | no contract of its own; `CountsCorrect` states its keys and buckets |
| UseData.ZeroSum | src/hooks/useData.js:80-85 | the initial counts sum to zero |
| UseData.AvailableFilters | src/hooks/useData.js:137-146 | the offered filters are exactly the targets counted at least once, never "Other", and all start off |
| UseData.Available | src/hooks/useData.js:137-146 | no contract of its own; `AvailableFilters` states which filters it offers |
| UseData.LoadedState | src/hooks/useData.js:77-174 | after loading: the expected number of points, counts over the fixed keys summing to it, all offered filters off, no filtered data, and the full index holding all points |
| UseData.ProcessVerbatims | src/hooks/useData.js:92-128 | fails iff the list has a `null` item; otherwise appends exactly that list's points and counts |
| UseData.ProcessCounty | src/hooks/useData.js:87-134 | a county's callback fails exactly as `CountySlots` does, and otherwise appends its points and counts |
| UseData.LoadData | src/hooks/useData.js:39-188 | `loadData` computes exactly `Load`: the loaded state or the caught error's message |
| UseData.Load | src/hooks/useData.js:39-188 | no contract of its own; `LoadedState` and `LoadData` state its outcome |
| UseData.ObjectValues | src/hooks/useData.js:87 | no contract of its own; `NullPayload` states that a `null` payload, and only that, ends the load with its `TypeError` |
| UseData.SlotsErrors | src/hooks/useData.js:87-134 | the county loop fails only with the `TypeError` of a `null` county or a `null` item |
| UseData.NullPayload | src/hooks/useData.js:87-184 | loading ends with the `Object.values` error exactly when the payload is `null` |
| UseData.Slots | src/hooks/useData.js:87-134 | no contract of its own; `SlotsStep`, `FailureEnds` and `PointCount` state how the counties' slots add up |
| UseData.SlotsStep | src/hooks/useData.js:87-135 | one more county extends the slots or fails |
| UseData.FailureEnds | src/hooks/useData.js:182-184 | a failure in the first counties is the failure of the whole load |
| UseData.FilterEffectSelects | src/hooks/useData.js:194-237 | once loaded, the filtered data is the selected points (also when no flag is on) and the index holds exactly them |
| UseData.FilteredMembers | src/hooks/useData.js:217-220 | a point is shown iff it was loaded and its classification's flag is on |
| UseData.Filtered | src/hooks/useData.js:217-220 | no contract of its own; `FilteredMembers` states which points it keeps |
| UseData.FilterEffect | src/hooks/useData.js:194-237 | no contract of its own; `FilterEffectSelects` states its result once the data is loaded |
| UseData.ToggleDiseaseFilter | src/hooks/useData.js:240-245 | sets the key to the value, appending it when new; every other key is unchanged |
| MapView.ZoomTo | src/components/Map/Map.jsx:75-91 | flies to the cluster's coordinates at min(expansion zoom, 20), keeps pitch and bearing, transition 500 ms |
| MapView.ClusterQuery | src/components/Map/Map.jsx:44-61 | no index gives no clusters; any clusters shown are what the index answers for the whole world at the integer zoom level, and an answer is always shown whole |
| MapView.QueryByZoomLevel | src/components/Map/Map.jsx:46-62 | viewports whose zoom floors to the same level ask the same query |
| MapView.QueryAtLevel | src/components/Map/Map.jsx:46-62 | querying at a zoom is querying at its integer level |
| MapView.MapComponent.constructor | src/components/Map/Map.jsx:11-36 | starts at the initial US viewport with no clusters and no selection |
| MapView.MapComponent.UpdateClusters | src/components/Map/Map.jsx:44-62 | the cluster data becomes the query result; viewport and selection unchanged |
| MapView.MapComponent.HandleClick | src/components/Map/Map.jsx:65-101 | nothing picked clears the selection; a cluster clears it and zooms in; a point is selected with its coordinates |
| MapView.MapComponent.HandleMapClick | src/components/Map/Map.jsx:104-109 | a map click whose `pickInfo.object` is absent clears the selection; otherwise nothing changes |
| MapView.MapComponent.OnViewStateChange | src/components/Map/Map.jsx:243 | the viewport becomes the reported one; nothing else changes |
| MapView.ClusterRadius | src/components/Map/Map.jsx:141-150 | the `getRadius` value lies in 8000..50000 and is 50000 from 84 points on |
| MapView.ClusterRadiusMonotone | src/components/Map/Map.jsx:143-147 | a larger cluster never gets a smaller `getRadius` value |
| MapView.ClusterRadiusStep | src/components/Map/Map.jsx:144-147 | below saturation each extra point adds 500 to the `getRadius` value |
| MapView.LayersIgnoreZoom | src/components/Map/Map.jsx:125-191 | whatever the viewport's zoom (`showDetailedView`), the layer list is the same |
| MapView.LayerPartition | src/components/Map/Map.jsx:132-164 | the two layers partition the query result: cluster entries in one, points in the other, together a permutation |
| MapView.Layers | src/components/Map/Map.jsx:128-191 | no contract of its own; `LayersIgnoreZoom`, `LayerPartition` and `LayerRadii` state the layers |
| MapView.ClusterLayer | src/components/Map/Map.jsx:130-159 | no contract of its own; `LayerPartition` and `LayerRadii` state its data and radii |
| MapView.TestimonialLayer | src/components/Map/Map.jsx:162-182 | no contract of its own; `LayerPartition`, `LayerRadii` and `PointFill` state its data, radii and fill |
| MapView.LayerRadii | src/components/Map/Map.jsx:136-173 | cluster `getRadius` values lie in 8000..50000, point values are 5000, and both layers have `radiusScale` 6 |
| MapView.PointFill | src/components/Map/Map.jsx:174 | a point's fill is a valid colour (its classification's, or gray) |
| MapView.TestimonialPosition | src/components/Map/Map.jsx:225-233 | there is a position iff a testimonial is selected |
| MapView.PositionDirection | src/components/Map/Map.jsx:228-231 | east of the centre is right and north is up, at 100 px per degree; the centre maps to the centre |
| MapView.PositionFollowsPan | src/components/Map/Map.jsx:230-231 | panning by some degrees moves the bubble the opposite way by 100 px per degree |
| TestimonialView.ReplaceAll | src/components/Testimonial/Testimonial.jsx:14-16 | replacing with a text no longer than the pattern never lengthens the string |
| TestimonialView.ReplaceAbsent | src/components/Testimonial/Testimonial.jsx:14-16 | without an occurrence of the pattern nothing changes |
| TestimonialView.Unescape | src/components/Testimonial/Testimonial.jsx:13-16 | unescaping never lengthens the text |
| TestimonialView.SanitizeText | src/components/Testimonial/Testimonial.jsx:9-18 | a falsy text gives ""; a non-string throws; a string gives a result no longer than it, with no whitespace at either end |
| TestimonialView.Clean | src/components/Testimonial/Testimonial.jsx:13-17 | the cleaned text is no longer and has no whitespace at either end |
| TestimonialView.UnescapeOne | src/components/Testimonial/Testimonial.jsx:14-16 | each replacement pass undoes exactly the escapes of its one character |
| TestimonialView.UnescapeEscape | src/components/Testimonial/Testimonial.jsx:13-16 | for text without backslashes, unescaping the escaped text gives the text back |
| TestimonialView.SanitizePlain | src/components/Testimonial/Testimonial.jsx:13-17 | text without backslashes is only trimmed |
| TestimonialView.SanitizeEscaped | src/components/Testimonial/Testimonial.jsx:13-17 | an escaped text is cleaned back to the trimmed original |
| TestimonialView.RawText | src/components/Testimonial/Testimonial.jsx:37 | the raw text is truthy iff one of the two fields is, is then one of them (`text` whenever it is truthy), and is otherwise "" |
| TestimonialView.RawTextSanitizes | src/components/Testimonial/Testimonial.jsx:37-38 | sanitising the raw text throws iff the field it is taken from is truthy and not a string; so it succeeds whenever both fields are strings or falsy |
| TestimonialView.DisplayText | src/components/Testimonial/Testimonial.jsx:41-44 | collapsed long text is its first 150 characters plus "..." (153 in all); otherwise the full text |
| TestimonialView.NeedsExpansion | src/components/Testimonial/Testimonial.jsx:41 | no contract of its own; `ButtonOnlyWhenLong` and `DisplayText` state its effect |
| TestimonialView.Render | src/components/Testimonial/Testimonial.jsx:28-44 | no testimonial renders nothing; a testimonial renders a bubble iff its raw text sanitises, and the bubble's text is `DisplayText` of the sanitised text (the 150-character preview plus "..." when collapsed and long) |
| TestimonialView.ButtonOnlyWhenLong | src/components/Testimonial/Testimonial.jsx:41-68 | the button exists iff the text is over 150 characters, reads "Show less" iff expanded, and short text is shown whole |
| TestimonialView.PointText | src/components/Testimonial/Testimonial.jsx:37 | a map point's raw text is its `nn_verbatim` when truthy, else "" |
| TestimonialView.TestimonialBubble.constructor | src/components/Testimonial/Testimonial.jsx:21 | the bubble starts collapsed |
| TestimonialView.TestimonialBubble.ToggleExpanded | src/components/Testimonial/Testimonial.jsx:31-34 | the toggle flips `expanded` |
| DiseaseMappings.GetDiseaseColor | src/utils/diseaseMappings.js:42-44 | the table entry for a key, "Other"'s gray otherwise; always 4 components in 0..255 with alpha 200 |
| DiseaseMappings.UncoloredClassifications | src/utils/diseaseMappings.js:7-43 | Plaque Psoriasis, Psoriatic Arthritis and Sjögren's Syndrome are drawn gray |
| DiseaseMappings.IconsFromKeys | src/utils/diseaseMappings.js:53-58 | folding distinct keys gives exactly those keys in order, each with the one icon |
| DiseaseMappings.IconsFrom | src/utils/diseaseMappings.js:53-58 | no contract of its own; `IconsFromKeys` states its entries |
| DiseaseMappings.IconsMatchColors | src/utils/diseaseMappings.js:53-58 | `DISEASE_ICONS` has exactly the keys of `DISEASE_COLORS`, all with the speech-bubble icon |
| DiseaseMappings.IconIsConstant | src/utils/diseaseMappings.js:56-63 | every classification, known or not, gets the speech-bubble icon |
| DiseaseMappings.GetDiseaseIcon | src/utils/diseaseMappings.js:61-63 | no contract of its own; `IconIsConstant` states its result |
| DiseaseMappings.PointSizeOf | src/utils/diseaseMappings.js:28-39 | base radius positive and min pixels ≤ max pixels for both sizes; clusters larger than points |
| FilterPanel.ActiveCount | src/components/FilterPanel/FilterPanel.jsx:6 | the count of switched-on flags is at most the number of flags |
| FilterPanel.ActiveCountZero | src/components/FilterPanel/FilterPanel.jsx:6 | the count is zero iff no flag is on |
| FilterPanel.CountUpdate | src/components/FilterPanel/FilterPanel.jsx:6 | changing one switch moves the count by that switch alone |
| FilterPanel.ToggleCount | src/components/FilterPanel/FilterPanel.jsx:6-32 | toggling a classification moves the count by −1 if it was on and +1 if it is now on |
| FilterPanel.CountSetPresent | src/components/FilterPanel/FilterPanel.jsx:6-32 | the same for a classification that already has a flag |
| FilterPanel.CountAppend | src/components/FilterPanel/FilterPanel.jsx:6-32 | a new flag adds one iff it is on |
| FilterPanel.Summary | src/components/FilterPanel/FilterPanel.jsx:16-20 | the summary exists iff the count is positive, and starts "Showing " |
| FilterPanel.SummaryWording | src/components/FilterPanel/FilterPanel.jsx:18 | "Showing 1 condition" for one; a trailing "s" iff the count is not 1; the number shown is the count |
| FilterPanel.Controls | src/components/FilterPanel/FilterPanel.jsx:24-25 | one control per offered classification, in order |
| FilterPanel.ControlShowsFlag | src/components/FilterPanel/FilterPanel.jsx:26-35 | a control is checked, "on" and "active" iff its flag is on |
| FilterPanel.ChangeShows | src/components/FilterPanel/FilterPanel.jsx:31-32 | after a change, that control shows the new state and every other classification's control is unchanged |
| StatisticsPanel.FirstActive | src/components/StatisticsPanel/StatisticsPanel.jsx:78-79 | none iff no flag is on; otherwise the key of the first switched-on entry |
| StatisticsPanel.NothingActive | src/components/StatisticsPanel/StatisticsPanel.jsx:82-84 | with no flag on, the default figures are shown |
| StatisticsPanel.FirstActiveDecides | src/components/StatisticsPanel/StatisticsPanel.jsx:5-84 | the first switched-on classification shows its table entry, or the default when it has none |
| StatisticsPanel.StatsFor | src/components/StatisticsPanel/StatisticsPanel.jsx:76-84 | no contract of its own; `NothingActive`, `FirstActiveDecides` and `LaterFlagsIgnored` state its result |
| StatisticsPanel.NoFiguresFor | src/components/StatisticsPanel/StatisticsPanel.jsx:83 | Plaque Psoriasis, Psoriatic Arthritis and Sjögren's Syndrome show the default figures |
| StatisticsPanel.FirstActiveAppend | src/components/StatisticsPanel/StatisticsPanel.jsx:78 | entries appended after a switched-on one do not change which is first |
| StatisticsPanel.LaterFlagsIgnored | src/components/StatisticsPanel/StatisticsPanel.jsx:78-84 | flags after the first switched-on one do not change the figures |

## Left out

- Regular expressions:
  - the keywords are matched as ASCII-lower-cased substrings and whole words;
  - Unicode case folding is not modelled;
  - Python's `\b` also treats non-ASCII letters as word characters; the model's word boundary uses
    ASCII letters, digits and `_` only.
- Python `str()` of lists and dictionaries (`classify_and_rewrite.py:55-56`) follows `repr` without
  its quote-escaping rules.
- The JSON text encoding (`json.dumps`) is a parameter, `Encoder`. The output framing is modelled; the
  characters of each encoded value are not. `Decimal` normalisation is not modelled: a decimal keeps
  its source text.
- The ijson parser is left out. The county table is the sequence of `(fips, value)` pairs it yields.
  Duplicate keys in the input object are not modelled.
- The file I/O is left out: `open`, `write`, the progress `print`s and `sys.exit`.
- The exception paths of `process_json_stream` are left out: file not found, and JSON parse errors.
- `ProcessJsonStream` takes the classifier as a parameter; `ClassifyAndRewrite` fixes it to
  `classify_testimonial`.
- The `_General Psoriasis` keyword group (`classify_and_rewrite.py:41`) is never looked up and is not
  modelled.
- Analyze.AnalysisCorrect: it requires every label to be hashable. When one is not, Python stops counting with
  `TypeError`, and the model only records that failure (`AnalyzeFailsOnlyWhen`).
- Analyze.AnalyzeClassifiedData: when the sort raises, Python has already printed the total and the number of
  labels; the model's `Err` drops them.
- A `Decimal` label keeps the JSON number text it was read from; it compares by that text's value
  (`DecimalValue`). Python's equality of `Decimal("2.50")` and `Decimal("2.5")` as dictionary keys is not
  modelled: they are two labels.
- Python dictionary keys `1`, `True` and `1.0` are equal keys. The model does not merge them.
- JS numbers are modelled as `real`, and rendering them to strings is not modelled.
- JS objects are ordered key lists in insertion order. Two things are not modelled:
  - integer-like keys, which JS enumerates first;
  - keys inherited from the prototype (for example a classification named "constructor").
- `fetch`, `Promise.all` and `topojson.feature` are left out. `geoCentroid` is replaced by the centroid
  stored with each feature.
- `Math.random` is a parameter `random: nat -> real`.
- Supercluster is modelled only as the sequence of points an index was loaded with. `getClusters` and
  `getClusterExpansionZoom` are parameters. When a flag is on but no point is selected, the source never
  calls `load` on its new index (`useData.js:231-233`), whose `getClusters` then throws and the map shows no
  clusters. The model stores an index loaded with no points instead; the map shows the same.
- The `isLoading` and `error` flags, the `data` and `geoData` states, and React scheduling (`useEffect`,
  `useMemo`) are not modelled.
- Testimonial length is counted in characters. JS counts UTF-16 code units, so the 150-character preview
  can differ for text outside the Basic Multilingual Plane.
- Hover tooltips, DeckGL and Mapbox rendering, icons, markup and CSS are not modelled. This includes the
  `rgba(...)` colour string of the disease label (`Testimonial.jsx:74`) and the fixed cluster fill colour.
- TestimonialView.TestimonialBubble.ToggleExpanded: the `expanded` flag lives in React state. Whether it
  carries over to the next selected testimonial is not modelled.
- MapView.LayerRadii: the radii are the layers' `getRadius` values and `radiusScale`. The conversion to metres
  and the clamp to `radiusMinPixels`..`radiusMaxPixels` (`Map.jsx:136-138`, `Map.jsx:168-170`) happen inside
  deck.gl and are not modelled.
- MapView.MapComponent.HandleMapClick: the click argument is assumed to carry `pickInfo.object` as the code
  reads it (`Map.jsx:106`). How deck.gl actually shapes the argument of a map-level click, and so whether a
  click on a point also clears the bubble, is not modelled.
- The order in which DeckGL fires the layer `onClick` and the map `onClick` for one click is not
  modelled. The two handlers are separate methods.
- `ChatterPopup.jsx` (a timer-driven animation not used by the map), `App.jsx` (composition only) and
  `vite.config.js` (build settings) are not part of this model.
